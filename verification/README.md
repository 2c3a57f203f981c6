# fs-watch event handler, modelled in Dafny

fs-watch watches a directory tree and turns raw change notifications into a
stream of `Created` / `Modified` / `Removed` messages. Each message carries
the path's metadata. A glob filter decides which paths are of interest. This
project models the engine behind that stream:

- **Metadata store** (`Metadata.MetadataStore`, src/metadata.rs): a class over
  a `map<Path, FsMetadata>` that the handler updates in place. `Add`
  re-stats a path and overwrites its entry. `Remove` deletes an entry and
  hands it back. `ChildPaths` lists the stored descendants of a stored
  directory. Paths are sequences of components, so "under" is the
  component-wise prefix test of `Path::starts_with` (`Paths.IsUnder`).
- **Message filter** (`Filter`, src/filter.rs): an OptIn or OptOut mode
  over a set of compiled globs. Glob syntax belongs to the `globset`
  library. Here a `GlobEngine` value supplies, for each pattern, either a
  compile error or an opaque test on paths, and it says whether building the
  set fails.
- **Event handler** (`Handler.EventHandler`, src/handler.rs): a class holding
  the filter, the store and the messages sent so far. The output channel is
  the append-only field `sent`.
  - `Handle` routes a notification to `CreateEntry`, `ModifyEntry` or
    `RemoveEntry`.
  - `Init` runs the baseline scan `ScanDir`.
  - The class invariant `Valid` says that only paths the filter admits are
    ever stored.

The filesystem is passed in as data:

- A `Stat` function gives, for each path, its OS metadata or an I/O error.
- The baseline scan walks a finite `Listing` tree. Each entry is either
  unreadable or a name together with what `read_dir` returns for it.

The handler's loops are proved against pure specifications over the pair
(store, messages sent), in modules `HandlerSpec`, `RemoveSpec` and
`ScanSpec`:

- `CreateEntry` and `ModifyEntry` equal the folds `CreateAll` and
  `ModifyAll`. Lemmas then describe the folds' store and messages.
- `RemoveEntry` cannot be a function, because `ChildPaths` visits keys in
  hash-map order. It is specified by the relation `RemoveOutcome`, which
  holds for every order, together with `RemovedInBatchOrder`: the batch is
  worked through path by path in its own order, each path's step being one
  that `PathRemoved` allows. `RemoveOutcomes` is the set of handler states
  both allow, and the handler ends in one of them.
- `ScanDir` equals the recursive function `Scan`. Lemmas then give what a
  scan reports, what it records, and that reports come in
  parent-before-child order. They also show that a successful scan covers
  the whole tree, and that a failed one failed on a listing or stat it
  reached.

Three behaviours of the code are easy to miss; the model follows the code:

- `remove_entry` applies the filter again to each descendant in the cascade.
  Under the invariant `Valid` every stored descendant is admitted, so this
  changes nothing (`RemoveSpec.SweepChildren`).
- `child_paths` returns all stored descendants, not only direct children,
  in hash-map order. A grandchild visited after its parent's cascade has
  already removed it gets a second `Removed` message with no metadata.
  `RemoveSpec.RemovalReport` admits such a message. The model claims exactly
  one `Removed` message carrying an entry per removed key
  (`RemoveSpec.RemoveReportsSwept`, `RemoveSpec.RemoveReportsOnce`), not
  exactly one `Removed` message per path. Without a stored directory among
  the admitted paths, and with none named twice, there is exactly one per
  path, in batch order (`RemoveSpec.LeafBatchReports`).
- A removed path that is not stored, or is stored as a file, does not
  cascade. Its stored descendants stay in the store (`RemoveSpec.Doomed`).

## Model

| member | source | states |
|---|---|---|
| Metadata.FromOs | src/metadata.rs:30-36 | the directory flag is kept; an unavailable creation or modification time becomes the Unix epoch, an available one is kept |
| Metadata.MetadataStore.constructor | src/metadata.rs:45-49 | a new store is empty |
| Metadata.MetadataStore.Get | src/metadata.rs:51-53 | the lookup yields an entry exactly when the path is stored, and then the stored entry; it reads the store and changes nothing |
| Metadata.MetadataStore.Add | src/metadata.rs:55-65 | succeeds iff the stat succeeds and returns the converted fresh metadata; on success the store is overwritten at that path only and its key set grows by at most that path; on failure the stat's error is returned and the store is unchanged |
| Metadata.MetadataStore.Remove | src/metadata.rs:67-69 | returns the prior entry, or nothing when there was none; afterwards the path is absent and every other entry is untouched |
| Metadata.MetadataStore.ChildPaths | src/metadata.rs:71-86 | when the path is stored as a directory, exactly the stored keys strictly below it (component-wise), without duplicates; nothing when it is unknown or a file |
| Filter.Empty | src/filter.rs:30-35 | an OptOut filter over no globs, which admits every path |
| Filter.Default | src/filter.rs:45-48 | the default filter is the empty one and admits every path |
| Filter.MessageFilter.IsMatch | src/filter.rs:37-42 | a path is admitted iff whether some glob of the set matches it agrees with the mode being OptIn: a match admits under OptIn and rejects under OptOut |
| Filter.ModesAreComplementary | src/filter.rs:37-42 | over the same glob set the two modes answer oppositely on every path |
| Filter.Create | src/filter.rs:17-28 | succeeds iff every pattern compiles and the set builds; the error is that of the first pattern that fails to compile, else the build error; on success the requested mode is kept and the set holds each pattern's compiled glob in order |
| HandlerSpec.Route | src/handler.rs:118-133 | generic create and rename-to go to create; generic modify goes to modify; rename-from and generic remove go to remove; every other kind is ignored (both directions of each) |
| HandlerSpec.Admitted | src/handler.rs:141-142 | the paths of a batch the filter lets through: exactly the batch's admitted paths, never more than the batch |
| HandlerSpec.AdmittedCounts | src/handler.rs:141-142 | each admitted path is kept as many times as the batch names it, and a rejected path not at all |
| HandlerSpec.CreateOutcomes | src/handler.rs:143-153 | one message per admitted path, in order: `Created` with the fresh metadata when the stat succeeds, the stat's error otherwise |
| HandlerSpec.CreateStep | src/handler.rs:141-155 | one loop iteration: the store becomes `Refresh` of the old store for that one path (re-statted when admitted and stattable, unchanged otherwise), and the messages grow by that path's one outcome if it is admitted and not at all otherwise |
| HandlerSpec.CreateAll | src/handler.rs:140-156 | a create batch keeps every earlier message and appends at most one per path |
| HandlerSpec.CreateAllStore | src/handler.rs:140-156 | after a create batch each admitted path whose stat succeeds holds its fresh metadata; nothing else changes and nothing is removed |
| HandlerSpec.CreateAllMessages | src/handler.rs:140-156 | a create batch appends exactly one message per admitted path, in batch order, and none for a rejected path; a failed stat does not stop the rest |
| HandlerSpec.RefreshKeepsAdmitted | src/handler.rs:142-143 | re-statting only admitted paths keeps the invariant that every stored path is admitted |
| HandlerSpec.ModifyStep | src/handler.rs:180-204 | one loop iteration keeps earlier messages and appends at most one; an appended message is for an admitted path, and is its `Modified` event with the fresh metadata when its stat succeeds; for an admitted path whose stat succeeds a message is appended iff the fresh time is later than the prior one; a failed stat appends its error |
| HandlerSpec.ModifyAll | src/handler.rs:179-206 | a modify batch keeps every earlier message and appends at most one per path |
| HandlerSpec.ModifyAllStore | src/handler.rs:179-206 | after a modify batch the store holds the fresh metadata of each admitted path whose stat succeeds, whether or not anything was emitted |
| HandlerSpec.ModifyAllMessages | src/handler.rs:179-206 | a modify batch only appends, at most one message per admitted path: a `Modified` event with an admitted path's fresh metadata, or the error of an admitted path whose stat failed |
| HandlerSpec.ModifyReportsNewer | src/handler.rs:179-206 | over a whole batch, for an admitted path whose stat succeeds: its `Modified` event with the fresh metadata is sent iff the path is in the batch and its fresh time is later than the one stored before the batch (the epoch when none was stored) |
| HandlerSpec.ModifyReportsUnstored | src/handler.rs:182-185 | a batch path the store did not hold is reported as modified iff its fresh time is later than the Unix epoch |
| HandlerSpec.ModifyReportsOnce | src/handler.rs:179-206 | against a filesystem that does not change during the call, a modify batch sends at most one event per path, even when the batch names the path several times |
| HandlerSpec.ModifyReportsErrors | src/handler.rs:200-202 | the error of every admitted batch path whose stat fails is among the appended messages |
| HandlerSpec.ModifySettledIsSilent | src/handler.rs:182-198 | when every admitted path already holds its current metadata, a modify batch changes no entry and sends no event, only stat errors |
| HandlerSpec.ModifyRepeatIsSilent | src/handler.rs:179-206 | delivering the same modify batch twice against an unchanged filesystem: the second delivery keeps the store and sends no `Modified` event |
| RemoveSpec.RemoveClearsSubtrees | src/handler.rs:158-177 | after a remove batch no admitted path of the batch is stored, nor anything that was stored below an admitted path stored as a directory; the invariant still holds |
| RemoveSpec.SubtreeShrinks | src/handler.rs:161-164 | a stored strict descendant has fewer stored paths at or below it than its ancestor, so the cascade terminates |
| RemoveSpec.SweepChildren | src/handler.rs:161-164 | removing the children batch of a stored directory sweeps exactly its stored strict descendants, even though the filter is applied again |
| RemoveSpec.SweepAppend | src/handler.rs:159-176 | handling one more admitted path removes exactly what that path dooms from what the earlier paths left |
| RemoveSpec.CascadeFromChildren | src/handler.rs:161-174 | for a stored directory: removal reports for its stored strict descendants come first, each of those descendants among them with its entry, then one `Removed` event carrying its own entry; the store loses exactly the directory and its stored descendants |
| RemoveSpec.CascadeCovers | src/handler.rs:161-165 | the cascade of a stored directory sends a `Removed` event with its entry for each of its stored strict descendants |
| RemoveSpec.RemovePathOutcome | src/handler.rs:160-175 | one admitted path: the cascade over its stored descendants and then its own removal take the store and messages to a state `PathRemoved` allows, with the entry log kept |
| RemoveSpec.EntryLogChain | src/handler.rs:159-176 | two consecutive runs of removals compose: keys only leave, each key that left is reported once with its entry, no removed directory keeps descendants, and descendants are reported before their directory |
| RemoveSpec.RemoveOutcomeStep | src/handler.rs:159-176 | handling one more path of the batch extends the batch outcome to that path |
| RemoveSpec.TraceStep | src/handler.rs:159-176 | a batch removed path by path in order, followed by one more path's removal, is the longer batch removed in order |
| RemoveSpec.LeafStep | src/handler.rs:160-175 | for a path that is not a stored directory, one step of the in-order trace removes exactly that path and sends exactly its `Removed` event with the entry it held, if admitted, and changes nothing otherwise |
| RemoveSpec.LeavesRemovedInOrder | src/handler.rs:159-176 | when no admitted path is a stored directory and none is named twice, after the first `n` paths exactly the admitted ones among them have left the store, other entries unchanged, and exactly their `Removed` events have been sent in batch order |
| RemoveSpec.LeafBatchReports | src/handler.rs:158-177 | the same for a whole batch: exactly one `Removed` event per admitted path, in batch order, each with the entry the store held or nothing, and exactly those paths leave the store |
| RemoveSpec.RemoveOneFile | src/handler.rs:158-177 | removing one admitted stored file sends exactly its one `Removed` event carrying its entry and drops just that key |
| RemoveSpec.RemoveReportsSwept | src/handler.rs:158-177 | every key a remove batch sweeps gets a `Removed` event carrying the entry it held |
| RemoveSpec.RemoveReportsOnce | src/handler.rs:158-177 | a stored key gets at most one `Removed` event carrying its entry in a remove batch |
| RemoveSpec.RemoveReportsInOrder | src/handler.rs:161-174 | for a stored directory that is an admitted batch path, each stored descendant's entry report precedes the directory's own |
| RemoveSpec.CascadeReports | src/handler.rs:159-176 | each message one admitted path appends is a removal report for the batch so far |
| ScanSpec.Scan | src/handler.rs:208-235 | the scan only appends messages |
| ScanSpec.ScanEntries | src/handler.rs:211-234 | the scan loop only appends messages |
| ScanSpec.ScanSegmentDescend | src/handler.rs:226-230 | what the nested scan of an admitted directory reports is also a report of the enclosing scan, with that directory reported first |
| ScanSpec.ScanIsSegment | src/handler.rs:208-235 | a scan only appends `Created` events for paths below the root, each with its stat's metadata; every path from the root's child down to it is admitted; its proper ancestors are directories descended into in recursive mode only; each parent is reported before its entries; the store records exactly the reported paths and keeps every other entry |
| ScanSpec.ScanEntriesIsSegment | src/handler.rs:211-232 | the same for the rest of one directory's loop |
| ScanSpec.ScanCovers | src/handler.rs:208-235 | a scan that succeeds reported every readable entry the filter admits, each with a working stat, and in recursive mode covered every such directory's own listing |
| ScanSpec.ScanEntryCovers | src/handler.rs:214-230 | an admitted entry whose processing succeeds is reported, and in recursive mode its directory listing is covered |
| ScanSpec.ScanFails | src/handler.rs:208-235 | a scan that fails does so with the error of a listing or of an admitted entry's stat that it reached; unreadable entries never fail it |
| ScanSpec.ScanEntriesFail | src/handler.rs:211-232 | a failing loop fails at an admitted entry of the listing at or after its position |
| Handler.EventHandler.constructor | src/handler.rs:106-112 | a new handler keeps the given filter, has an empty store, has sent nothing, and holds the invariant |
| Handler.EventHandler.Init | src/handler.rs:114-116 | the baseline scan equals `Scan`; what it sends and records is a scan segment of the root; on success the whole tree is covered; on failure the error is one the scan reached |
| Handler.EventHandler.Handle | src/handler.rs:118-138 | a watcher error appends exactly one `Error` and leaves the store; an ignored kind changes nothing; the routed kinds behave as `CreateAll`, `ModifyAll` or end in a state of `RemoveOutcomes` (batch order included); the invariant is kept |
| Handler.EventHandler.CreateEntry | src/handler.rs:140-156 | the new store and messages are `CreateAll` of the old ones; the invariant is kept |
| Handler.EventHandler.RemoveEntry | src/handler.rs:158-177 | ends in a state of `RemoveOutcomes`: the batch is handled path by path in batch order, each step as `PathRemoved` allows (`RemovedInBatchOrder`); the store loses exactly the swept keys; only removal reports are appended, each for a swept path and carrying nothing or the entry the store held for it; every admitted path of the batch is reported; every swept key is reported exactly once with its entry, a directory's stored descendants before it |
| Handler.EventHandler.RemoveNext | src/handler.rs:159-176 | one iteration of the loop extends the batch outcome, and the in-order trace of the batch, by one path |
| Handler.EventHandler.RemovePath | src/handler.rs:160-175 | a rejected path changes nothing; an admitted one loses itself and, if it is a stored directory, its stored descendants, each reported with its entry; their reports precede the path's own `Removed` event, which carries its stored entry or nothing; the entry log holds |
| Handler.EventHandler.ModifyEntry | src/handler.rs:179-206 | the new store and messages are `ModifyAll` of the old ones; the invariant is kept |
| Handler.EventHandler.ScanDir | src/handler.rs:208-235 | the new store, messages and outcome are `Scan` of the old state; the invariant is kept |

## Left out

- src/watcher.rs is not part of this model. It covers the shared mutex, the watcher thread and the construction of the `notify` watcher. `init` and `handle` are modelled as whole calls, which the single mutex guarantees.
- src/main.rs and src/cli.rs are not part of this model: channel creation, the consumer loop, JSON output and argument parsing are I/O.
- Glob syntax and matching are the `globset` library's. A compiled glob is an opaque test on paths, and `Glob::new` and `GlobSetBuilder::build` are the `GlobEngine` functions.
- `stat` and `read_dir` are operating-system calls. They are parameters: a `Stat` function that stays fixed for one handler call, and a finite `Listing` tree. Changes to the filesystem during a call are not modelled.
- Symbolic-link cycles cannot occur in a finite `Listing` tree.
- The channel is an append-only sequence of messages. A send to a closed channel, which the code drops silently, is not modelled.
- Error texts are carried as given. How `io::Error` and `notify::Error` render to text is not modelled.
- Timestamps are integers counted from the epoch. The `chrono` conversion from `SystemTime` is not modelled.
- Notification sub-kinds that the handler never routes are collapsed into one constructor each: the data, metadata and access details, and the `Other` kinds.
- The `FsMetadata::new`, `FsMessageEvent::new` and `FsMessageError::new` constructors are not modelled separately. The same holds for the `From` conversions into `FsMessage`: datatype constructors play their part.
- Handler.EventHandler.RemoveEntry: the order and number of the messages inside one directory's cascade are left open. They follow the hash-map order of `child_paths`. The model fixes that the batch paths are handled in batch order, each with its own `Removed` event last in its step. It also fixes that each stored descendant is reported once with its entry, before its directory. How many reports without an entry a cascade sends, and where they fall within it, is not fixed.
- Handler.EventHandler.RemoveEntry: its ghost parameter `bound` exists only to prove that the cascade terminates.
