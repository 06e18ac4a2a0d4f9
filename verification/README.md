# Titan: verified models of value separation and blob garbage collection

Titan is a RocksDB plugin. It moves large values out of the LSM tree into blob files, leaves a small
blob index in their place, and garbage-collects the blob files while users keep writing. This
project models the parts of Titan where that can go wrong and proves what they guarantee, for every
input and for every run:

| part | files |
|---|---|
| garbage collection as a protocol: user writes, snapshots, flushes, compactions, any number of GC jobs, purges and crashes, interleaved one atomic step at a time over a versioned map | `Lsm`, `GcProtocol`, `GcInvariant`, `GcProof`, `GcTheorems`, `GcScan`, `GcHistory`, `GcProgress` |
| the file index of one column family | `Ordering`, `Storage` |
| the manifest as a log: edits, the collector, recovery, and all of it again on bytes | `Edits`, `Manifest`, `Replay`, `ReplayTheorems`, `Coding`, `Codec`, `ManifestBytes` |
| blob files: layout, building with and without a dictionary, iterating | `BlobLayout`, `BlobFile`, `BlobFileBuilding`, `BlobFileIterating`, `BlobRoundTrip` |
| the value-separating table builder, and its theorem with those on blob files for the format and codecs in use | `TableBuilding`, `Titan` |
| validity bitmaps, live sizes, the merge iterator, the sorted-run sweep, the picker, file states, the GC scheduler | `Bitmaps`, `LiveSize`, `MergeIterating`, `SortedRuns`, `Picker`, `FileStates`, `Scheduler` |

`dafny verify dfyconfig.toml` checks everything. Objects that the source updates in place are classes
(`BlobStorage`, `BlobFileSet`, `EditCollector`, `BlobFileBuilder`, `BlobFileIterator`,
`TitanTableBuilder`, `BitMap`, `BlobFileMergeIterator`, `BlobFileMeta`, `TitanScheduler`); loops are
methods with loops, each proved against a specification about which the lemmas speak.

The main theorems:

* `GcTheorems.GcInvisible`, `NoDanglingIndex`, `CrashSafe` and `BitmapSound`, over every interleaving
  of the 23 kinds of step; `GcHistory.SnapshotReadsItsTime` and `SyncedSurvives` say what snapshots and
  syncs keep over a run, and `GcProgress.JobReclaims` that a job does what it is for;
* `ReplayTheorems.ManifestReplay` and `ManifestBytes.ManifestBytesReplay`, over every run of accepted
  edits, purges and reopenings;
* `TableBuilding.BuildTable`, over every input stream and every setting of the options;
* `BlobRoundTrip.BuildAndRead` and `BlobFileIterating.PrevLands`, over every sequence of records
  (`Titan` states both, and the table theorem, for the real format and index codec);
* `FileStates.FileStatesSafe` and `StateIsHistory`, `Scheduler.SchedulerSafe` and `ServedInOrder`, over
  every run of their events;
* `LiveSize.LiveSizeIsReferenced`, `MergeIterating.MergeAll`, `SortedRuns.SweepIsExact`,
  `Bitmaps.BitMap.BitOps`.

## What is assumed

* Reads by iterators succeed, and user writes go to the WAL.
* A purge reads the oldest snapshot and removes files under different locks
  (`src/db_impl_files.cc:16-20`), so files may become obsolete in between. The GC theorems allow this
  in every case but one (`locked` in `GcProtocol.Enabled`): the purge has read that there is no
  snapshot, and a snapshot taken since then reads from the files. `GcTheorems.RaceIff` shows that
  exactly this case loses data, and `GcTheorems.NoRace` gives conditions on the snapshot list that
  rule it out.
* The base DB is a log of versioned entries. A compaction may drop entries whose absence no live
  snapshot and no crash state can see; a flush or compaction may replace entries, at the same key and
  sequence, by blob indexes of the files it has written or by inline values. What replaces an entry
  has its value, if its blob file is still there when the SST is installed; a file that was purged
  while the compaction ran puts no condition on the replacement.
* The level of a blob file is below the number of levels that the storages count.
* Compression, dictionary training, CRC-32C (section 12.1 of RFC 3720), block trailers and the meta
  index block are functions with the laws in `BlobFile.Lawful`; comparators are total orders.
* Varints follow "Base 128 Varints" of the Protocol Buffers encoding specification.

## Where the code does less than one would expect

* `GcTheorems.PurgeRaceLosesData`: a file that becomes obsolete after a running purge has read an
  empty snapshot list is removed although a snapshot still needs it. `RaceIff` gives the exact
  condition.
* `ReplayTheorems.StrayDeletesFail`: LogAndApply accepts an edit that deletes a file of a column family
  that is not open every time it is given, but a manifest with two of them for one file cannot be
  replayed. This is about LogAndApply alone; no caller in the source issues such edits.
  `ReplaySucceedsIff` gives the exact condition.
* `Scheduler.FailedDropBlocksGc`: when the base DB fails to drop a column family, the request is never
  taken back, and no GC starts again. `GcCanStartIff` gives the exact condition, and `DropCanFail`
  the run that gets there.
* `SortedRuns.SingleKeyIsMarked`: a file with a single key never leaves the sweep, so it counts for
  every later start. `SweepIsExact` says which files are marked, for all inputs, and `AsDesignedIff`
  when these are the designed ones.
* `LiveSize.OrderShowsBelowZero`: when the deltas take away more than was created, the unsigned size
  wraps around or is cut to zero, depending on the order. `AnyOrder` gives the exact condition.
* `BlobFileBuilding.EmptyKeyFallsOut`: an empty user key is taken for "no key yet".
  `InRangeIff` gives the exact condition for a range that covers its file.
* `LiveSize.EmptyCreationIsLost`: a file that a compaction created with nothing live stays pending for
  ever. `SettlesIff` gives the exact condition.
* `BlobFileIterating.OpenFile`: a footer that fails its checks does not keep a file without a dictionary
  from being opened.
* `BlobFileIterating.PrevLands`: below the record area `IterateForPrev` stays at the first record with
  an ordinal that has wrapped around.
* `Replay.Recover` keeps a file on disk whose number is that of the new manifest.
* `Storage.BlobStorage.MarkFileObsolete`: marking a file twice lists it twice; `AddBlobFile` with a number
  in use breaks the agreement of the indexes. Both contracts say exactly when.

## Model

| member | source | states |
|---|---|---|
| GcProof.UserWrite | src/db_impl.cc:647-700 | a user's put or delete keeps every read that someone can still make equal to the plain map's, and every job's obligations |
| GcProof.SnapshotTaken | src/db_impl.h:268-279 | a new snapshot reads what the plain map reads there, and does not need any obsolete file |
| GcProof.TableWritten | src/db_impl.cc:63-106 | new blob files enter the manifest before any key points at them, with numbers that no other file, job or table has |
| GcProof.TableInstalled | src/table_builder.cc:27-222 | replacing entries by equal-valued ones keeps all reads, the uniqueness of indexes and the soundness of bitmaps, also when the old blob file was purged in the meantime |
| GcProof.TableSettled | src/db_impl.cc:1194-1276 | the completion event frees the new files and nothing else |
| GcProof.TableAborted | src/table_builder.cc:299-308 | an abandoned flush or compaction leaves only unused files |
| GcProof.Compacted | src/db_impl.cc:1325-1418 | dropping entries that nobody sees keeps all reads, and the indexes that left are in no entry any more |
| GcProof.Delivered | src/db_impl.cc:1406-1418 | any part of the pending invalidations may be delivered at any time |
| GcProof.BitsCopied | src/blob_gc_job.cc:252-270 | a job's copy of the bitmaps stays sound while users write |
| GcProof.Picked | src/blob_gc.cc:27-31 | a picked file belongs to one job, and every record a key still needs is in the job's stream |
| GcProof.Scanned | src/blob_gc_job.cc:231-340 | one turn of the scan loop forgets no record that a key still needs, although users write between turns |
| GcProof.Installed | src/blob_gc_job.cc:631-699 | the output enters the manifest before any key is re-pointed to it |
| GcProof.RewroteHit | src/blob_gc_job.cc:29-63 | a conditional write that passes its check changes no value that can be read |
| GcProof.RewroteMiss | src/blob_gc_job.cc:757-879 | a conditional write that fails leaves the key alone, and its new record may be marked invalid |
| GcProof.RewriteFinished | src/blob_gc_job.cc:757-879 | once all rewrites are through, no key's latest version is in an input file |
| GcProof.JobSynced | src/blob_gc_job.cc:873-876 | after the WAL sync no crash can bring an input file back into sight |
| GcProof.InputsDeleted | src/blob_gc_job.cc:881-905 | inputs marked obsolete at the current sequence are out of sight from there on, and in every crash state; a running purge may go on unless it has seen no snapshot and one now reads from them |
| GcProof.JobReleased | src/blob_gc.cc:33-41 | a job may stop at any stage without harm to reads or to other jobs |
| GcProof.PurgeRemoved | src/blob_storage.cc:162-190 | the strict test against the oldest snapshot removes only files that no read can reach |
| GcProof.Crashed | src/blob_file_set.cc:65-134 | recovery from any prefix that keeps the synced writes restores the whole invariant |
| GcTheorems.StepKeepsInv | src/blob_gc_job.cc:193-356 | each of the 23 kinds of step keeps the invariant |
| GcTheorems.RunKeepsInv | src/blob_gc_job.cc:592-629 | so does every run |
| GcTheorems.SpecIsUserTrace | src/db_impl.cc:647-700 | without crashes the plain map has run exactly the user's writes, in order |
| GcTheorems.GcInvisible | src/blob_gc_job.cc:757-829 | after every run, the latest read and the read at each live snapshot equal those of a plain versioned map that ran only the user operations; what a snapshot is held to read is fixed by `GcHistory.SnapshotReadsItsTime` |
| GcTheorems.NoDanglingIndex | src/blob_storage.cc:162-190 | after every run, a blob index visible at the latest sequence or at a live snapshot names a stored file and a record of its own key in it |
| GcTheorems.CrashSafe | src/blob_gc_job.cc:589-621 | wherever a run stops, recovery from any prefix that keeps the synced writes serves all of them from files that survive |
| GcTheorems.BitmapSound | src/blob_gc_job.cc:252-270 | a set bit, delivered, on its way or copied by a job, marks an index that no entry of the LSM holds |
| GcHistory.SnapshotReadsItsTime | src/db_impl.cc:790 | over every run without a crash, a snapshot reads until its release what a plain map holds that ran exactly the user's writes made before it was taken |
| GcHistory.SyncedSurvives | src/blob_gc_job.cc:873-876 | over every run, no crash loses a write that a sync has covered |
| GcHistory.CrashKeeps | src/blob_file_set.cc:65-134 | a crash leaves a prefix of the writes and exactly the recorded files that were not obsolete, all in normal state and in no job |
| GcProgress.JobReclaims | src/blob_gc_job.cc:589-629 | from every state of the invariant without snapshots and purges, every job that can be picked runs to its end: its input files are gone, the records that its keys still had are in one new file in normal state, and no other file has changed |
| GcProgress.TableSeparates | src/table_builder.cc:27-222 | a flush or compaction that may be installed runs to its end: exactly the planned entries are replaced, and exactly the new files are there in normal state |
| GcProgress.DroppedIsMarked | src/db_impl.cc:1325-1418 | a compaction takes exactly the dropped entries out of sight, and once delivered their indexes are marked and in no entry |
| GcProgress.ReleaseFrees | src/blob_gc.cc:33-41 | a job that stops at any stage gives back its inputs and its installed output in normal state, and touches no other file |
| GcProgress.PurgeIsExact | src/db_impl_files.cc:7-42 | an undisturbed purge removes exactly the files that became obsolete before every live snapshot |
| GcProgress.NothingIsLeftBehind | src/blob_storage.cc:162-190 | from every state of the invariant without a purge: once the snapshots are released, a purge removes every obsolete file and no other |
| GcProgress.SnapshotsHoldInputs | src/blob_gc_job.cc:881-905 | a purge right after a job has deleted its inputs takes them exactly if no snapshot is live |
| GcProgress.MissIsMarked | src/blob_gc_job.cc:803-815 | a copy that no key was re-pointed to is told to the bitmaps, and the log stays as it was |
| GcTheorems.RaceIff | src/db_impl_files.cc:7-42 | when inputs are deleted while a purge runs, the live snapshots are still served after it exactly when the purge has seen a snapshot or no live snapshot reads from the inputs |
| GcTheorems.NoRace | src/blob_storage.cc:162-190 | there is no race when the purge has seen a snapshot, or when no live snapshot is older than the last WAL sync |
| GcTheorems.PurgeRaceLosesData | src/db_impl_files.cc:16-20 | a run from the empty database in which the purge race loses a value that a snapshot needs |
| GcScan.DoRunGC | src/blob_gc_job.cc:193-356 | for all writes of users between the turns: with bitmaps the rewrites are exactly the indexes of the stream that are not in the bitmaps, in order, and otherwise those of the records found live and not shadowed by a fresher one of their key; the output holds their records in that order, each rewrite leads from its index to its copy, and this is the job that the protocol's scan steps compute |
| GcScan.ScanCopies | src/blob_gc_job.cc:231-340 | the scan steps of the protocol copy exactly the chosen records, in order, and aim each rewrite at its copy |
| GcScan.ChosenIsLive | src/blob_gc_job.cc:252-297 | without bitmaps a record is chosen only if the key pointed at it when it was looked up |
| GcScan.ScanIsExact | src/blob_gc_job.cc:231-340 | with no writes in between and no bitmap, the rewrites are exactly the live records in order: skipping the rest of a key after a fresh record loses nothing |
| Ordering.BytewiseIsTotal | src/blob_storage.h:30-41 | the default comparator is one of the total orders the other theorems speak about |
| Storage.AddKeepsAgreement | src/blob_storage.cc:91-107 | adding a file keeps range index, obsolete list and level counts in agreement exactly when its number is new |
| Storage.MarkLists | src/blob_storage.cc:120-137 | the obsolete list stays exact exactly when the file was not obsolete yet |
| Storage.BlobStorage.constructor | src/blob_storage.h:30-41 | an empty storage whose indexes agree |
| Storage.BlobStorage.AddBlobFile | src/blob_storage.cc:91-107 | the new file map, range index and counts, and exactly when they still agree |
| Storage.BlobStorage.MarkFileObsolete | src/blob_storage.cc:109-137 | whether the file was found, the new state, and exactly when the indexes still agree |
| Storage.BlobStorage.RemoveFile | src/blob_storage.cc:139-160 | the file leaves the file map and the range index together, wherever it stands among equal keys |
| Storage.BlobStorage.GetObsoleteFiles | src/blob_storage.cc:162-190 | the erase-while-iterating loop removes exactly the files obsolete before the oldest snapshot, lists them in order, and keeps all indexes in agreement |
| Storage.BlobStorage.FilesInRange | src/blob_storage.cc:29-70 | one range yields exactly the live files whose whole key range is inside, each once, legacy files apart |
| Storage.BlobStorage.GetBlobFilesInRanges | src/blob_storage.cc:29-70 | over several ranges a file appears once for each range that contains it |
| Edits.SealCf | src/edit_collector.h:143-186 | Seal accepts exactly the batches that neither add a stored number nor delete a missing or obsolete one, paired numbers apart |
| Edits.ApplyCf | src/edit_collector.h:188-211 | after Seal, Apply meets no error in any order of its hash tables and leaves the batch applied with all indexes in agreement; the obsolete list grows by exactly the deletions of files that the batch does not add, each once and with its own sequence |
| Edits.AddsFitIff | src/edit_collector.h:124-132 | additions are taken exactly when all their numbers are new and different |
| Edits.DelsFitIff | src/edit_collector.h:134-141 | deletions are taken exactly when all their numbers are new and different |
| Edits.AddsAre | src/edit_collector.h:124-132 | a collected number stands for the very file that was added under it |
| Edits.DelsAre | src/edit_collector.h:134-141 | a collected deletion has the sequence that the edit gave it |
| Manifest.CollectAdds | src/edit_collector.h:124-132 | added files are taken exactly when no number comes twice |
| Manifest.CollectDels | src/edit_collector.h:134-141 | deleted files are taken exactly when no number comes twice |
| Manifest.ApplyBatch | src/edit_collector.h:77-98 | a batch that fits reaches every open storage, in any order, and leaves the indexes of all of them in agreement; every obsolete list grows by exactly its own deletions with their sequences |
| Manifest.EditCollector.constructor | src/edit_collector.h:243-248 | an empty batch |
| Manifest.EditCollector.AddEdit | src/edit_collector.h:23-52 | an edit is accepted exactly when it repeats no number and does not lower the counter; a sealed collector refuses and does not change |
| Manifest.EditCollector.Seal | src/edit_collector.h:55-74 | the verdict over all column families, before anything is changed |
| Manifest.EditCollector.Apply | src/edit_collector.h:77-98 | after a successful Seal all of the batch is applied to the storages in place, otherwise nothing is; every obsolete list grows by exactly the batch's deletions with their sequences, and range index, obsolete list and level counts of every storage agree in both cases |
| Manifest.EditCollector.GetNextFileNumber | src/edit_collector.h:100-108 | the last counter of the batch, or a corruption |
| Manifest.BlobFileSet.constructor | src/blob_file_set.cc:229-242 | a storage of its own for each column family, without files, and file number 1 next |
| Manifest.BlobFileSet.NewFileNumber | src/blob_file_set.h:72 | every number is handed out once |
| Manifest.BlobFileSet.LogAndApply | src/blob_file_set.cc:208-227 | all or nothing: a rejected edit changes neither manifest nor storages, and the storages change only after the record is written and synced, with all their indexes in agreement; the obsolete list of its column family grows by exactly the edit's own deletions of files it does not add, with their sequences, and no other list changes |
| Manifest.EditEffect | src/edit_collector.h:188-211 | an accepted edit file by file: added files are live as given, deleted ones obsolete, a file added and deleted in one edit never appears, all other files and column families are as before |
| Replay.CollectIff | src/edit_collector.h:23-52 | a batch of edits is accepted exactly when the counter never falls and no number repeats, and it then holds the edits put end to end |
| Replay.WriteSnapshot | src/blob_file_set.cc:178-206 | the snapshot names the counter and, for each column family, exactly the live files |
| Replay.CollectRecords | src/blob_file_set.cc:65-78 | the record loop accepts exactly the manifests whose batch is accepted |
| Replay.ReplayManifest | src/blob_file_set.cc:65-88 | replay succeeds exactly when the batch fits empty storages, and gives its files and its counter |
| Replay.OpenManifest | src/blob_file_set.cc:139-176 | a new manifest holds a snapshot of the storages with the counter above its own number |
| Replay.Recover | src/blob_file_set.cc:41-137 | recovery writes a snapshot of what it restored, advances the counter past the new manifest, and keeps on disk exactly the restored files and that number |
| ReplayTheorems.LogKeepsInv | src/blob_file_set.cc:208-227 | an accepted edit with fresh numbers keeps manifest and live files in step |
| ReplayTheorems.PurgeKeepsInv | src/blob_file_set.cc:311-337 | purging obsolete files does not disturb the manifest |
| ReplayTheorems.ReopenKeepsInv | src/blob_file_set.cc:139-176 | recovery and its snapshot start the next run in step |
| ReplayTheorems.ReplaySucceedsIff | src/blob_file_set.cc:65-88 | a reachable manifest replays exactly when column families that are not open had no file deleted twice |
| ReplayTheorems.ReplayEqualsLive | src/blob_file_set.cc:65-88 | what replay yields is the live files, and the counter is above all of them |
| ReplayTheorems.RunKeepsInv | src/blob_file_set.cc:208-227 | every run of edits, purges and reopenings keeps the manifest in step |
| ReplayTheorems.ManifestReplay | src/blob_file_set.cc:65-88 | after every run, one batched replay reproduces what the many applications built, and succeeds exactly under that condition |
| ReplayTheorems.StrayDeletesFail | src/edit_collector.h:55-74 | from every reachable state, the same deletion in a column family that is not open is accepted twice and the manifest does not replay |
| ReplayTheorems.StrayDeleteBreaksReplay | src/edit_collector.h:55-74 | a new database with the default column family and two accepted edits whose manifest cannot be replayed |
| Coding.EncodeVarint | lib/rocksdb-6.29.tikv/util/coding.h:177-186 | the encoding loop writes the base-128 digits |
| Coding.DecodeVarint | lib/rocksdb-6.29.tikv/util/coding.cc:54-87 | the decoding loop reads what the recursive reader reads, with the same limit on length |
| Coding.Varint64Back | lib/rocksdb-6.29.tikv/util/coding.h:299-309 | every 64-bit number comes back, whatever follows it |
| Coding.Varint32Back | lib/rocksdb-6.29.tikv/util/coding.h:287-297 | every 32-bit number comes back, whatever follows it |
| Coding.PrefixedBack | lib/rocksdb-6.29.tikv/util/coding.h:323-332 | every string shorter than 2^32 comes back, whatever follows it |
| Coding.FixedReads | lib/rocksdb-6.29.tikv/util/coding.h:260-276 | every fixed-width number comes back, whatever follows it |
| Coding.FixedOf | lib/rocksdb-6.29.tikv/util/coding.h:260-276 | bytes are the encoding of the number they are read as |
| Codec.HandleBack | src/blob_format.cc:96-108 | a handle comes back, whatever follows it |
| Codec.IndexBack | src/blob_format.cc:114-144 | a blob index comes back from its whole slice exactly when an absent old file has a zero old handle |
| Codec.MetaBack | src/blob_format.cc:151-189 | all persistent fields of a file's metadata come back |
| Codec.EncodeTo | src/version_edit.cc:8-23 | the appending loops write counter, column family, added and deleted files in this order |
| Codec.DecodeEdit | src/version_edit.cc:25-87 | the tag loop reads what the recursive reader reads, and fails where it fails |
| Codec.EditBack | src/version_edit.cc:8-87 | every persistent field of an edit comes back, with obsolete sequences 0 |
| Codec.LegacyBack | src/version_edit.cc:51-60 | every file in the form of older versions is read, in order, without entries, level and keys |
| Codec.UnknownTag | src/version_edit.cc:77-79 | a tag that is not known makes the whole record corrupt |
| Codec.HeaderBack | src/blob_format.cc:298-324 | a file header comes back exactly when its version and flags are supported |
| Codec.FooterBack | src/blob_format.cc:326-355 | a footer has its fixed size and its block handle comes back through padding, magic number and checksum |
| Codec.FooterChecked | src/blob_format.cc:337-355 | whatever decodes as a footer holds the magic number and its own checksum |
| ManifestBytes.AllBack | src/version_edit.cc:8-87 | a whole manifest comes back from its records |
| ManifestBytes.PersistedRecovers | src/blob_file_set.cc:65-88 | losing the obsolete sequences changes neither whether a manifest replays nor what it restores |
| ManifestBytes.ManifestBytesReplay | src/blob_file_set.cc:41-137 | the replay theorem holds of the encoded manifest |
| BlobFile.RecordBack | src/blob_format.cc:20-31 | a record comes back and uses up its slice |
| BlobFile.StoredBack | src/blob_format.cc:37-94 | header, checksum and compression, with or without a dictionary, undo each other |
| BlobFile.DamageIsSeen | src/blob_format.cc:58-82 | a stored record whose size, type or payload changes so that the checksum does is refused |
| BlobFile.LibInverts | src/blob_format.cc:298-355 | the concrete format meets every law that the layout theorems ask of a format |
| BlobFileBuilding.PlacedAt | src/blob_file_builder.cc:117-141 | the context of item j gets the place of its own record among the records alone |
| BlobFileBuilding.RangeExact | src/blob_file_builder.cc:74-83 | without empty keys, smallest and largest are bounds and are keys of the file |
| BlobFileBuilding.InRangeIff | src/blob_file_builder.cc:74-83 | the range covers the file exactly when no key is empty or the last one is |
| BlobFileBuilding.EmptyKeyFallsOut | src/blob_file_builder.cc:74-83 | a file whose range misses its empty key |
| BlobFileBuilding.BlobFileBuilder.constructor | src/blob_file_builder.cc:10-49 | a file with its header, buffered exactly when a dictionary is to be trained |
| BlobFileBuilding.BlobFileBuilder.Add | src/blob_file_builder.cc:51-84 | items go in order; what has been delivered so far, and now, is the places of all items, or nothing while buffered; buffering ends exactly when the samples reach the training size, with a dictionary trained on all of them |
| BlobFileBuilding.BlobFileBuilder.AddSmall | src/blob_file_builder.cc:86-88 | a small entry waits at its place among the records |
| BlobFileBuilding.BlobFileBuilder.EnterUnbuffered | src/blob_file_builder.cc:90-115 | the dictionary is trained on the encoded records so far, and everything that waited is delivered in order, with its place under that dictionary |
| BlobFileBuilding.BlobFileBuilder.FlushSampleRecords | src/blob_file_builder.cc:117-141 | the nested index loops match samples with contexts: all records are written and all contexts delivered |
| BlobFileBuilding.BlobFileBuilder.WriteEncoderData | src/blob_file_builder.cc:143-154 | one stored record is appended, and the handle is its place |
| BlobFileBuilding.BlobFileBuilder.WriteRawBlock | src/blob_file_builder.cc:156-174 | a block and its trailer are appended, and the handle is the block's place |
| BlobFileBuilding.BlobFileBuilder.Finish | src/blob_file_builder.cc:185-212 | the file is exactly the image of its records and dictionary, trained on all of them if none was before, the rest is delivered, and count and range are those of the records |
| BlobFileIterating.OpenImage | src/blob_file_iterator.cc:22-77 | opening finds the dictionary and ends the records exactly where the meta blocks or the footer begin |
| BlobFileIterating.RecordAt | src/blob_file_iterator.cc:134-165 | at the place of record i stands record i, and the next place is right behind it |
| BlobFileIterating.FetchedAt | src/blob_file_iterator.cc:167-198 | from position i the iterator gets record i with its handle, or stops at the end |
| BlobFileIterating.PrevLands | src/blob_file_iterator.cc:97-132 | inside the record area it lands on the record whose bytes contain the offset, with its ordinal; past the end it fails; below it the ordinal wraps |
| BlobFileIterating.BlobFileIterator.Init | src/blob_file_iterator.cc:22-77 | Init opens the file with the status its footer left, or leaves an error; a bad footer alone stops only a file with a dictionary |
| BlobFileIterating.BlobFileIterator.SeekToFirst | src/blob_file_iterator.cc:79-84 | the cursor after opening and fetching, with the record index not reset |
| BlobFileIterating.BlobFileIterator.Next | src/blob_file_iterator.cc:88-91 | the cursor after one more fetch |
| BlobFileIterating.BlobFileIterator.PrefetchAndGet | src/blob_file_iterator.cc:134-198 | the cursor one record further, at the end, or in error |
| BlobFileIterating.BlobFileIterator.IterateForPrev | src/blob_file_iterator.cc:97-132 | the header-only loop ends on the cursor that PrevLands describes, or in the middle of the walk at a header that cannot be read |
| BlobFileIterating.ReadAll | src/blob_file_iterator.cc:79-91 | a first SeekToFirst/Next run over a built file lists its records with their handles |
| BlobRoundTrip.BuildFile | src/blob_file_builder.cc:51-212 | the builder's file, and the handle it hands out for each record |
| BlobRoundTrip.BuildAndRead | src/blob_file_iterator.cc:79-172 | reading back what was built yields the same records in order with the handles the builder handed out |
| TableBuilding.DirectSound | src/table_builder.cc:119-126 | an entry may go straight to the base table only when nothing waits before it |
| TableBuilding.WaitingSound | src/table_builder.cc:127-134 | otherwise it waits at its place in the stream |
| TableBuilding.RecordSound | src/table_builder.cc:136-194 | a separated value keeps its place in the stream, whether it waits, releases the others, or passes |
| TableBuilding.FinishSound | src/table_builder.cc:224-265 | finishing a file before the last contexts are written keeps the order |
| TableBuilding.TableMeaning | src/table_builder.cc:27-222 | entry by entry: same user key and sequence, same value through the indexes, and the form the options ask for: in fallback mode every readable index is its plain value again, a normal table has indexes into the new files for exactly the large values and the readable values of files that a level merge takes along, and everything else is as it came |
| TableBuilding.RealIndexLaw | src/blob_format.cc:114-144 | the blob index codec meets the law the table theorem asks for |
| TableBuilding.TitanTableBuilder.constructor | src/table_builder.h:17-31 | an empty table |
| TableBuilding.TitanTableBuilder.Add | src/table_builder.cc:27-117 | one more input is answered, in order; the build fails exactly on an index that has to be decoded and does not |
| TableBuilding.TitanTableBuilder.AddMerged | src/table_builder.cc:79-111 | a value is moved when its file is due for a merge and can be read; otherwise the index stays |
| TableBuilding.TitanTableBuilder.AddFallback | src/table_builder.cc:40-68 | the base table gets one entry: the value under its plain key when the blob can be read, the index as it came otherwise |
| TableBuilding.TitanTableBuilder.AddBase | src/table_builder.cc:119-134 | a kept entry never overtakes a waiting one |
| TableBuilding.TitanTableBuilder.AddBlob | src/table_builder.cc:136-194 | a separated value is answered in order, and no open file has reached its target size |
| TableBuilding.TitanTableBuilder.AddBlobResultsToBase | src/table_builder.cc:196-222 | contexts become base entries in order, a kept value as it is, a record as an index |
| TableBuilding.TitanTableBuilder.FinishBlobFile | src/table_builder.cc:224-265 | the file is closed, what waited in it is written first, and nothing late is lost |
| TableBuilding.TitanTableBuilder.Finish | src/table_builder.cc:278-297 | no blob file stays open and every input is answered |
| TableBuilding.BuildTable | src/table_builder.cc:27-297 | for every stream and option: it fails exactly on an index that does not decode in fallback mode or under a level merge; otherwise one entry per input in order, with equal user key, sequence and value; in fallback mode every readable index is its plain value again, a normal table has indexes into the new files for exactly the large values and the readable values of files that a level merge takes along, and everything else is as it came |
| Titan.PlainIsLawful | src/blob_format.cc:37-94 | some library keeps all the laws that are asked of compression, checksums and meta blocks |
| Titan.BuildAndRead | src/blob_file_builder.cc:51-212 | for every lawful library the real format gives back the records in order with their handles |
| Titan.PrevLandsInFile | src/blob_file_iterator.cc:97-132 | for every lawful library IterateForPrev lands on the record that holds the offset |
| Titan.BuildTable | src/table_builder.cc:27-297 | for every lawful library the table theorem, forms of entries included, holds with the real blob file format and the real index codec |
| Bitmaps.Combine | src/blob_validation_check.cc:74-177 | the four-word loop with its byte tail equals the bytewise operation for every length |
| Bitmaps.OpBitwise | src/blob_validation_check.cc:74-177 | the bytewise operation is the operator on every single bit |
| Bitmaps.BitMap.constructor | src/blob_validation_check.cc:8-13 | all bits are clear |
| Bitmaps.BitMap.SetBit | src/blob_validation_check.cc:26-54 | exactly one bit changes, never outside the buffer; bad arguments change nothing |
| Bitmaps.BitMap.GetBit | src/blob_validation_check.cc:55-73 | the bit asked for, never outside the buffer |
| Bitmaps.BitMap.BitOps | src/blob_validation_check.cc:74-177 | every bit of the result is the operator applied to the two bits, also when both maps are one; different lengths change nothing |
| Bitmaps.BitMap.CopyTo | src/blob_validation_check.cc:178-191 | an empty target gets an equal copy in a buffer of its own; any other is refused unchanged |
| Bitmaps.RecordCompaction | src/db_impl.cc:1325-1418 | an entry is invalid afterwards exactly when it was before, or is among the inputs and not among the outputs |
| LiveSize.BlobFileMeta.UpdateLiveDataSize | src/blob_format.h:263-271 | the 64-bit result, the plain sum wherever it fits, and failure with size zero exactly when it would be negative |
| LiveSize.BlobFileMeta.OnFlush | src/db_impl.cc:1225-1273 | the size after a flush event, with early deltas paid back; the file is settled, and a settled file does not change |
| LiveSize.BlobFileMeta.OnCompaction | src/db_impl.cc:1440-1521 | the size after a compaction event, early or late; a pending file is settled exactly by growth |
| LiveSize.AnyOrder | src/db_impl.cc:1440-1489 | with one creation and later losses in any order the file leaves the pending state, and the size is the sum exactly when the sum is not negative |
| LiveSize.LiveSizeIsReferenced | src/db_impl.cc:1225-1273 | for every history of referenced sizes and every order of delivery, the live size is the last referenced size |
| LiveSize.OrderShowsBelowZero | src/db_impl.cc:1503-1521 | two orders of the same two events that end with different sizes |
| LiveSize.EmptyCreationIsLost | src/db_impl.cc:1440-1489 | without a growing event the file never stops being pending |
| LiveSize.SettlesIff | src/db_impl.cc:1440-1521 | once all events have arrived the size is right, and the file has left the pending state exactly when a flush created it or the creating compaction left something live |
| MergeIterating.BlobFileMergeIterator.SeekToFirst | src/blob_file_iterator.cc:222-233 | the current record is least among all first records, and there is one exactly when some file has one |
| MergeIterating.BlobFileMergeIterator.Next | src/blob_file_iterator.cc:235-245 | one file moves by one record, and the current record is least again |
| MergeIterating.MergeAll | src/blob_file_iterator.cc:210-245 | every record of every file exactly once, in non-decreasing key order, each with its own file and place |
| SortedRuns.SweepIsExact | src/db_impl.cc:1026-1064 | the sweep marks exactly the files that some start puts among more than the allowed runs, whatever order equal ends get |
| SortedRuns.AsDesigned | src/db_impl.cc:1026-1064 | with smallest < largest throughout, that is the designed definition |
| SortedRuns.AsDesignedIff | src/db_impl.cc:1026-1064 | the marks are the designed ones under every limit exactly when smallest < largest for every file |
| SortedRuns.SingleKeyIsMarked | src/db_impl.cc:1026-1064 | a single-key file that is marked although nothing overlaps it |
| SortedRuns.Sweep | src/db_impl.cc:1026-1064 | the loop with its mutable set computes the marks |
| Picker.PickBlobGC | src/blob_gc_picker.cc:21-94 | the picked batch is the shortest prefix of the eligible files that reaches the limits; it is refused exactly when too small, and more work is reported exactly when enough is left |
| Picker.OneBatch | src/blob_gc_picker.cc:21-94 | scores and limits determine the batch |
| Picker.PickFiles | src/blob_gc_picker.cc:26-71 | the loop with its running totals and flags ends with the one batch, its size, and whether enough is left |
| Picker.EligibleAre | src/blob_gc_picker.cc:96-104 | only normal files that reach the ratio are eligible |
| Picker.EligibleAll | src/blob_gc_picker.cc:31-43 | no normal file is passed over before the first low score |
| Picker.EligibleIff | src/blob_gc_picker.cc:31-43 | on descending scores the eligible files are exactly the normal ones that reach the ratio |
| FileStates.TransitFiles | src/blob_gc.cc:27-41 | the loop moves all of its files, or stops where an assertion fails |
| FileStates.StepKeepsInv | src/blob_format.cc:198-255 | in every state of the invariant, no step fails an assertion; `StatesAfter` and `StateIsHistory` say in which state each file is then |
| FileStates.RunKeepsInv | src/blob_format.cc:198-255 | no run fails an assertion |
| FileStates.FileStatesSafe | src/blob_gc_picker.cc:31-104 | after every run: no assertion has failed, no file is an input of two unfinished jobs, and no output of an unfinished job can be picked |
| FileStates.StatesAfter | src/blob_format.cc:198-255 | over every run: a restart makes every stored file pickable, a release every file of its job that is not obsolete, a flush or growing compaction the file that waited for it, and a file is obsolete afterwards exactly if it was before or the event deletes it |
| FileStates.StateIsHistory | src/blob_format.cc:198-255 | after every run the state of each stored file is the one its history gives: obsolete exactly if deleted, else reserved exactly while an unfinished job holds it, else pending exactly until its table completes, else normal; it can be picked exactly in the last case |
| FileStates.ReleasedIs | src/blob_gc.cc:33-41 | a release frees what is not obsolete of its job and touches nothing else |
| FileStates.RestartedIs | src/blob_file_set.cc:88-134 | a restart keeps exactly the stored files that are not obsolete, all pickable, and no job |
| Scheduler.StepKeepsInv | src/db_impl_gc.cc:137-195 | every step keeps the accounting, and a starting worker finds a queue entry |
| Scheduler.SchedulerSafe | src/db_impl_gc.cc:137-195 | after every run: queue length accounted for, workers within the limit without test calls, no GC while a drop is past its wait |
| Scheduler.ServedInOrder | src/db_impl_gc.cc:137-195 | over every run the queue is first in, first out: everything asked for, a job's own column family with data left while the queue is short included, has been served in order or is still queued |
| Scheduler.SchedulesAll | src/db_impl_gc.cc:137-150 | scheduling keeps the number of requests, and stops only when none is left or the limit is reached |
| Scheduler.FailedDropBlocksGc | src/db_impl.cc:501-533 | once a drop has failed in the base DB, no GC starts in any continuation |
| Scheduler.GcCanStartIff | src/db_impl.cc:501-533 | from every state of the invariant, some continuation starts a GC job exactly when no drop has failed in the base DB |
| Scheduler.DropCanFail | src/db_impl.cc:501-533 | three steps from the idle state to one with a failed drop |
| Scheduler.TitanScheduler.constructor | src/db_impl.h:349-360 | an idle scheduler that meets the invariant |
| Scheduler.TitanScheduler.AddToGCQueue | src/db_impl.h:243-247 | one more request at the end of the queue |
| Scheduler.TitanScheduler.PopFirstFromGCQueue | src/db_impl.h:251-256 | the oldest request leaves the queue |
| Scheduler.TitanScheduler.MaybeScheduleGC | src/db_impl_gc.cc:137-150 | the loop schedules as many workers as are asked for and allowed, and loses no request |
| Scheduler.TitanScheduler.StartWorker | src/db_impl_gc.cc:156-171 | a worker takes the oldest request, which is always there |
| Scheduler.TitanScheduler.RequeueGC | src/db_impl_gc.cc:197-286 | a column family with data left goes to the end of the queue, with one more request, exactly when queue and scheduled jobs are at most twice the limit |
| Scheduler.TitanScheduler.EndWorker | src/db_impl_gc.cc:171-195 | the counters after a worker, with its column family queued again only if the queue is short |
| Scheduler.TitanScheduler.BeginDrop | src/db_impl.cc:501-503 | a drop request blocks new workers |
| Scheduler.TitanScheduler.PassDropWait | src/db_impl.cc:505-511 | a drop goes on only when no GC runs |
| Scheduler.TitanScheduler.EndDrop | src/db_impl.cc:514-533 | a successful drop takes its request back; a failed one does not |

## Left out

- Hardware-offloaded GC, tools, statistics, logging, option dumping and checkpoints.
- Level merge beyond the choices of the table builder and the sorted-run sweep: its deletion edits, and the file events NeedMerge and Reset, which the runs of `FileStates` do not contain.
- `DeleteFilesInRanges`: it removes SSTs on purpose. Caller-requested range deletion of blob files appears in the file-state and storage models only.
- The compaction filter: a wrapper around foreign code.
- The score and ratio of `ComputeGCScore` are floating-point; the picker model takes any integer scores in any order.
- The file system, caches, prefetch and readahead sizes: files are byte sequences that are there or not.
- I/O errors of reads in the iterators: a read returns the bytes that are there. Repeated `SeekToFirst` runs; the `BitMap` move constructor.
- I/O errors of the base table and blob file writers while a table is built.
- Destruction of dropped column families, and the purge loop over all column families of `BlobFileSet::GetObsoleteFiles`.
- Recovery of the base DB itself: a crash keeps some prefix of the log that contains all synced writes.
- SortedRuns.Sweep: `std::sort` is taken as any order of the ends that is sorted by key, not modelled as an algorithm.
- MergeIterating.BlobFileMergeIterator.Next: the heap is a set whose least element is taken out, not an array with sift operations.
- TableBuilding.BuildTable: the value theorem speaks of files and file numbers below 2^64 and records that fit the format's 32-bit lengths, which is where the format's own integers end.
- GcScan.ScanIsExact: says nothing about runs with writes in between; `GcProof.Scanned` and the protocol theorems do.
