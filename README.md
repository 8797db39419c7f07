# Remote compaction worker and write-batch lookup, in Dafny

This project models two pieces of a RocksDB fork and proves properties of the models.

**The remote compaction worker** (`tools/compact_worker.cc`) is a process that
reads a compaction request from stdin. It then:

- translates the host's directories into its own;
- rebuilds a minimal version set from a synthetic `VersionEdit`;
- builds the compaction descriptor and runs the engine between the lock steps;
- writes one `CompactionResults` to stdout.

The model covers:

- the environment lookup (`GetEnvString`, `GetDirFromEnv`);
- the path translation (`GetWorkerNodeDir`, `MakeOutputPath`);
- the plugin guards (`CreatePluginTpl`, `ExtraBind`);
- `db_paths` assembly;
- the synthetic edit;
- the input replacement;
- the execution envelope of `main`: the pre-sized sub-compaction slots, the stored `Run` status, and which paths write the result, what they write and what they return.

The engine, `VersionSet::Recover`, the manifest writes and the plugin factory are oracles. Each is a function-typed field of `Engine` or `PluginFactory`. `main` appears twice:

- as pure functions: `Provision`, `Bootstrap`, `Launch`, `Dispatch`, `Execute`;
- as methods of a `Worker` class that update a `CompactionResults` object and an output-stream object in place. Each method is proved equal to its function.

**The write-batch-with-index lookup**
(`utilities/write_batch_with_index/write_batch_with_index_internal.cc`) has two parts:

- `GetEntryFromDataOffset`: the offset checks and the map from a WriteBatch record tag to the `WriteType` the index stores.
- `GetFromBatch`: the read-your-own-writes lookup. It walks the entries for a key from newest to oldest and collects Merge operands until a Put, a Delete, or an unexpected entry. It stops at the first Merge when `overwrite_key` is set. It then decides whether to run the full merge.

The index of one column family is its entries in insertion order. The record decoder, the comparator and `MergeHelper::TimedFullMerge` are parameters.

The model of `GetFromBatch` has three layers:

- `Scan` is the specification of the backward loop.
- `Resolve` is the specification of the merge decision.
- `BatchLookup` combines the two.

The methods `ScanBatch` and `GetFromBatch` update a `MergeContext` object. They are proved against these functions.

Files:

- `wrappers.dfy`: Option and Result.
- `rocks_status.dfy`: `Status`.
- `decimal.dfy`: `%0Nd` and `ToString`, and the parser that inverts them.
- `worker_types.dfy`, `worker_paths.dfy`, `worker_session.dfy`, `worker_main.dfy`: the compaction worker.
- `wbwi_entry.dfy`, `wbwi_lookup.dfy`: the lookup.

What the code does on its failure paths:

- **A failed manifest write, `SetCurrentFile` or `Recover` is fatal and writes no result.** Each is checked by `TERARK_VERIFY_F` (lines 183-197 of `tools/compact_worker.cc`). It prints the failed status and aborts, so nothing reaches stdout (`Stop.Abort`, exit `Terminated`, the status message on stderr).
- **The `TERARK_VERIFY_EQ` on the comparator's timestamp size aborts too** (lines 222-224). It runs after the lock is taken.
- **A catch path writes the result with its default OK status.** Only a returning `Run` assigns `results->status` (line 245). The result holds whatever the job had written into it when it threw: its statistics through `&results->job_stats` (line 233), and what the extensions bound at line 137 reported into `sub_compacts` and the aggregated fields. A fault raised before the job exists finds the sized default result.
- **An unmapped directory is caught by `main`'s own handlers.** The `invalid_argument` that `GetWorkerNodeDir` throws is raised inside the try block, so the result is written and 1 is returned. Only a missing `WORKER_ROOT` or `HOSTER_ROOT` ends the process before `main` runs. Those are read by the member initialisers of `Main`.
- **`main` is modelled over the corrected translator.** As written, `GetWorkerNodeDir` never returns a value (see Findings). Line 147 therefore throws on every request whose extensions are created without a fault and whose `cf_paths` is non-empty. `main` then never takes the lock and returns 1 with the sized default result (`MainAsWrittenNeverRuns`). `Bootstrap`, `Dispatch`, `Execute` and the `Worker` methods use the translator with the intended `return dir;`, so that the rest of `main` is modelled at all.

## Model

| member | source | states |
|---|---|---|
| CompactWorkerPaths.GetEnvStringAsWritten | tools/compact_worker.cc:57-64 | a set variable is returned unchanged; an unset one with no default throws "missing env var: name"; an unset one with a default falls off the end of the function |
| CompactWorkerPaths.GetEnvString | tools/compact_worker.cc:57-64 | succeeds exactly when the variable is set or a default is given; the variable's value wins over the default; otherwise it throws invalid_argument naming the variable |
| CompactWorkerPaths.GetEnvStringAgrees | tools/compact_worker.cc:57-64 | the corrected and as-written versions agree on every input except an unset variable with a default, where the written one falls off the end |
| CompactWorkerPaths.GetEnvStringDefaultIsLost | tools/compact_worker.cc:61-64 | an unset variable with a default: the written function reaches its end without returning; the corrected one returns the default |
| CompactWorkerPaths.WithTrailingSlash | tools/compact_worker.cc:68-70 | empty stays empty; a value ending in '/' is unchanged; otherwise exactly one '/' is appended |
| CompactWorkerPaths.WithTrailingSlashIdempotent | tools/compact_worker.cc:66-72 | normalising twice is normalising once; the result is empty or ends in '/', starts with the input, and is at most one character longer |
| CompactWorkerPaths.GetDirFromEnv | tools/compact_worker.cc:66-72 | succeeds exactly when GetEnvString does, and then returns its value normalised to a trailing '/'; otherwise the same fault |
| CompactWorkerPaths.LoadRoots | tools/compact_worker.cc:76-77 | both roots are read with no default, WORKER_ROOT first: a missing WORKER_ROOT is reported before a missing HOSTER_ROOT; on success both are normalised |
| CompactWorkerPaths.GetWorkerNodeDirAsWritten | tools/compact_worker.cc:79-90 | as written, the translator throws the "does not start with HOSTER_ROOT" fault on every input, prefixed or not |
| CompactWorkerPaths.GetWorkerNodeDir | tools/compact_worker.cc:80-89 | succeeds exactly when HOSTER_ROOT is a prefix; the result starts with WORKER_ROOT, has length \|worker\| + \|host dir\| - \|hoster\|, and its remainder is the host dir's remainder |
| CompactWorkerPaths.TranslateSubstitutesPrefix | tools/compact_worker.cc:80-85 | hoster_root + suffix translates to exactly worker_root + suffix |
| CompactWorkerPaths.TranslateInjective | tools/compact_worker.cc:80-85 | two host directories with the same translation are equal |
| CompactWorkerPaths.GetWorkerNodeDirFallsThrough | tools/compact_worker.cc:79-90 | for every prefixed directory the written translator throws while the corrected one returns worker_root + suffix |
| CompactWorkerPaths.MakeOutputPath | tools/compact_worker.cc:91-96 | succeeds exactly when cf_paths[0] is under HOSTER_ROOT and is then its translation followed by "/job-" and the padded job id; otherwise the translator's fault |
| CompactWorkerPaths.MakeOutputPathAsWritten | tools/compact_worker.cc:91-96 | over the as-written translator the output path is never produced |
| CompactWorkerPaths.MakeOutputPathInjective | tools/compact_worker.cc:91-96 | two requests that differ only in job id get distinct output directories |
| CompactWorkerPaths.JobDirName | tools/compact_worker.cc:94 | "/job-" followed by at least 8 characters that parse back as the job id |
| CompactWorkerPaths.JobDirNameShape | tools/compact_worker.cc:94 | a job id in [0, 10^8) takes exactly 8 characters after "/job-" |
| CompactWorkerPaths.JobSevenDirName | tools/compact_worker.cc:94 | job 7 gets "/job-00000007" |
| Decimal.FormatInt | tools/compact_worker.cc:94 | "%0Nd": at least N characters, all digits for a non-negative value, otherwise a '-' followed by digits |
| Decimal.Padded | tools/compact_worker.cc:94 | the zero-padded digits of n are all decimal digits and spell n back, whatever the width |
| Decimal.FormatIntRoundTrip | tools/compact_worker.cc:94 | parsing the formatted string gives back the integer, for every sign and width |
| Decimal.FormatIntInjective | tools/compact_worker.cc:94 | distinct integers are formatted as distinct strings |
| Decimal.Digits | utilities/write_batch_with_index/write_batch_with_index_internal.cc:87-88 | ToString of an unsigned value: a non-empty string of decimal digits in canonical form, "0" for zero and no leading '0' otherwise |
| Decimal.ValueOfDigits | utilities/write_batch_with_index/write_batch_with_index_internal.cc:87-88 | the digits ToString writes spell the number back |
| CompactWorkerSession.BoundTargets | tools/compact_worker.cc:31-39 | a channel, per-subcompact or aggregated, is bound exactly when a binder is registered for the object's class name |
| CompactWorkerSession.CreatePlugin | tools/compact_worker.cc:41-55 | an empty class name leaves the slot unset and binds nothing; otherwise it fails exactly when acquisition or (with serde) deserialisation fails, and the created object is bound as BoundTargets says |
| CompactWorkerSession.CreatePluginsFrom | tools/compact_worker.cc:136-145 | succeeds exactly when every role's creation succeeds, giving one slot per role in order; a failure is the fault of the first role that fails |
| CompactWorkerSession.FirstUnmapped | tools/compact_worker.cc:152-154 | the position of the first cf_path not under HOSTER_ROOT (every earlier one is), or \|cf_paths\| when none |
| CompactWorkerSession.DbPathsOf | tools/compact_worker.cc:150-155 | succeeds exactly when every cf_path is mapped; then \|cf_paths\| + 1 entries, entry i the translation of cf_paths[i] with its target size, the last (output_dir, UINT64_MAX); otherwise the first unmapped path's fault |
| CompactWorkerSession.BuildDbPaths | tools/compact_worker.cc:150-155 | the emplace_back loop yields exactly DbPathsOf, including the fault of the first unmapped path |
| CompactWorkerSession.LevelEntries | tools/compact_worker.cc:173-175 | one entry per file of the level, in order, each tagged with the level |
| CompactWorkerSession.FlattenInputsLength | tools/compact_worker.cc:172-176 | the edit holds exactly as many files as all input levels together |
| CompactWorkerSession.FlattenInputsPosition | tools/compact_worker.cc:172-176 | file j of level i sits at position FileCount(levels before i) + j, tagged with its level: every file appears once, in iteration order |
| CompactWorkerSession.SyntheticEdit | tools/compact_worker.cc:165-176 | log number 0, the host's next file number and last sequence, the column family id and name, and as many files as the input levels hold |
| CompactWorkerSession.BuildVersionEdit | tools/compact_worker.cc:165-176 | the Set/Add calls and the nested AddFile loops yield exactly SyntheticEdit: log number 0, the host's next file number and last sequence, the column family id and name, and the flattened input files |
| CompactWorkerSession.DescriptorFileName | tools/compact_worker.cc:178 | the manifest name is dbname + "/MANIFEST-" followed by at least six digits that spell the manifest file number |
| CompactWorkerSession.ReplacedInputs | tools/compact_worker.cc:202-205 | one level per input level, in order, each keeping its level number and holding exactly LevelFiles(level) |
| CompactWorkerSession.RebuildInputs | tools/compact_worker.cc:202-205 | the copy-and-overwrite loop yields exactly ReplacedInputs: same levels in the same order, each level's files replaced by LevelFiles(level) and nothing else changed |
| CompactWorkerSession.MakeCompaction | tools/compact_worker.cc:200-211 | the descriptor holds the replaced inputs, output_path_id is \|cf_paths\| cast to uint32_t, and output level, target file size, max compaction bytes, max subcompactions and grandparents are copied from the request |
| CompactWorkerSession.WriteManifest | tools/compact_worker.cc:177-198 | succeeds exactly when NewWritableFile, AddRecord, SetCurrentFile and Recover all return OK, and then yields Recover's outcome; the first failing step aborts with its status message; nothing here throws |
| CompactWorkerSession.Provision | tools/compact_worker.cc:147-212 | an unmapped cf_paths[0] throws its fault; otherwise the first unmapped cf_path throws; otherwise a failed manifest step aborts as WriteManifest says; succeeds exactly when none of these happens, with output dir MakeOutputPath, db_paths DbPathsOf, the synthetic edit and a successful recovery |
| CompactWorkerSession.ComparatorTimestampSize | tools/compact_worker.cc:222-223 | the user comparator's timestamp size when one was created, 0 for the default bytewise comparator |
| CompactWorkerSession.Bootstrap | tools/compact_worker.cc:136-212 | a plugin fault is thrown before anything else; an empty cf_paths is undefined behaviour; otherwise the outcome is Provision's over the created plugins; succeeds exactly when all of these do, carrying the six created plugins and the output path |
| CompactWorkerSession.BootstrapAsWritten | tools/compact_worker.cc:136-147 | over the as-written translator the bootstrap never succeeds: once the plugins exist and cf_paths is non-empty, line 147 throws the unmapped-directory fault for cf_paths[0] |
| CompactWorkerSession.SessionShape | tools/compact_worker.cc:147-211 | cfo.cf_paths equals db_paths, of length \|cf_paths\| + 1; output_path_id is \|cf_paths\| (while it fits uint32_t) and indexes (output_dir, UINT64_MAX); inputs replaced level by level; output level and max subcompactions copied; output dir is the translated cf_paths[0] + "/job-%08d" |
| CompactWorkerMain.Resized | tools/compact_worker.cc:134 | vector::resize: length n, the old slots kept, the new slots default-initialised |
| CompactWorkerMain.Sized | tools/compact_worker.cc:134 | the default result with exactly max_subcompactions empty slots |
| CompactWorkerMain.Diagnostic | tools/compact_worker.cc:252-263 | the std::exception handler's line starts with "caught exception: " and the Status handler's does not; each ends with what was thrown (what(), or the status message) |
| CompactWorkerMain.Caught | tools/compact_worker.cc:252-263 | a std::exception or Status returns 1 and writes the result as it was at the throw plus one diagnostic; any other type terminates with nothing written; never returns 0 |
| CompactWorkerMain.TimestampMismatch | tools/compact_worker.cc:222-224 | the check is skipped for an empty full_history_ts_low; a non-empty one without a user comparator always fails it |
| CompactWorkerMain.Written | tools/compact_worker.cc:137-233 | the job's writes land in the result in place: statistics replaced, each reported slot's entries written into that slot with the vector's length kept, aggregated entries written, status untouched |
| CompactWorkerMain.JobFault | tools/compact_worker.cc:225-243 | the fault the CompactionJob lets out, with the statistics it had written: Prepare's throw first, then Run's, none exactly when Prepare finishes and Run returns |
| CompactWorkerMain.Launch | tools/compact_worker.cc:213-263 | exit 0 exactly when the timestamp check passes, Prepare does not throw and Run returns, with Run's status and everything the job wrote (statistics, per-subcompaction slots, aggregated fields) written once; exit 1 exactly when the job lets out a std::exception or Status, with the sized result holding what the job had written, status OK, and one diagnostic; terminated exactly on a timestamp mismatch (the VERIFY_EQ message on stderr, no result) or an uncatchable fault; max_subcompactions slots throughout; the lock steps taken |
| CompactWorkerMain.Dispatch | tools/compact_worker.cc:103-263 | one result written exactly when main returns, return code 0 or 1, one diagnostic exactly for 1, max_subcompactions slots, status OK unless 0; a failed bootstrap never reaches the lock, returns 1 exactly for a caught fault, and otherwise terminates with the abort message or nothing on stderr; a successful one continues as Launch |
| CompactWorkerMain.Execute | tools/compact_worker.cc:98-263 | the same envelope for the whole of main, starting from SerDeRead's outcome; a request that cannot be read leaves the default result, never reaches the lock, and returns 1 with its diagnostic exactly when the fault is caught |
| CompactWorkerMain.CatchableFaultReturnsOne | tools/compact_worker.cc:98-263 | main returns 1 exactly when a std::exception or Status reaches its handlers, from SerDeRead, the bootstrap, Prepare or Run; the result is then written once with that fault's diagnostic |
| CompactWorkerMain.TerminatedExactly | tools/compact_worker.cc:98-263 | main does not return exactly when a check aborts, the behaviour is undefined, or a fault of another type escapes both handlers; nothing is then written to stdout |
| CompactWorkerMain.ExitZeroCarriesRunStatus | tools/compact_worker.cc:240-250 | main returns 0 exactly when bootstrap succeeds, every lock step is taken and Run returns; the result is then the sized result with the job's writes and Run's status verbatim, written once |
| CompactWorkerMain.EngineFailureIsolated | tools/compact_worker.cc:243-250 | whatever status Run returns, failed or not, main returns 0 and writes that status with max_subcompactions slots |
| CompactWorkerMain.CatchPathKeepsDefaultStatus | tools/compact_worker.cc:225-263 | on a return of 1 the result is written once, with status OK and one diagnostic line; its statistics are zero when the fault came before Prepare, and otherwise the result holds exactly what the job had written when it threw |
| CompactWorkerMain.MainAsWrittenNeverRuns | tools/compact_worker.cc:147-263 | over the as-written translator main never returns 0 or takes the lock; with the plugins created and a non-empty cf_paths it returns 1, writes the sized default result and the unmapped-directory diagnostic |
| CompactWorkerMain.LockReleasedBeforeRun | tools/compact_worker.cc:219-243 | Prepare is preceded only by Lock, and Run is reached only after Lock, Prepare, Unlock |
| CompactWorkerMain.CompactionResults.ResizeSubCompacts | tools/compact_worker.cc:134 | sub_compacts becomes Resized of its old value, nothing else changes |
| CompactWorkerMain.CompactionResults.RecordJobWrites | tools/compact_worker.cc:137-233 | the object becomes Written of its old value: statistics replaced, reported slot and aggregated entries written, the status kept |
| CompactWorkerMain.CompactionResults.SetStatus | tools/compact_worker.cc:245 | the status replaced, everything else kept |
| CompactWorkerMain.ProcessStreams.SerDeWrite | tools/compact_worker.cc:249 | appends the current result to stdout, stderr unchanged |
| CompactWorkerMain.ProcessStreams.WriteDiagnostic | tools/compact_worker.cc:254-261 | appends one line to stderr, stdout unchanged |
| CompactWorkerMain.Worker.Catch | tools/compact_worker.cc:252-263 | a std::exception or Status writes the result and one diagnostic and returns 1; any other type escapes with nothing written |
| CompactWorkerMain.Worker.ProvisionSession | tools/compact_worker.cc:147-212 | the loops and engine calls of main yield exactly Provision |
| CompactWorkerMain.Worker.BootstrapSession | tools/compact_worker.cc:136-212 | the plugin creation and session building of main yield exactly Bootstrap |
| CompactWorkerMain.Worker.LaunchJob | tools/compact_worker.cc:213-263 | exit code, final result object, stdout, stderr and lock steps are those of Launch on the object's prior result |
| CompactWorkerMain.Worker.Serve | tools/compact_worker.cc:213-263 | exit code, final result object, stdout, stderr and lock steps are those of Dispatch |
| CompactWorkerMain.Worker.Run | tools/compact_worker.cc:98-263 | main's exit code, stdout, stderr and lock steps are those of Execute |
| CompactWorkerMain.RunProcess | tools/compact_worker.cc:74-263 | a missing root variable ends the process with nothing written; otherwise the outcome is Execute's, and exactly one result is written when main returns |
| WriteBatchEntry.WriteType.Code | utilities/write_batch_with_index/write_batch_with_index_internal.cc:164-165 | the WriteType enumerator's value, below 8, that the Corruption message prints |
| WriteBatchEntry.TagToWriteTypeMatchesTable | utilities/write_batch_with_index/write_batch_with_index_internal.cc:53-85 | the switch yields kind t exactly for t's listed tags, in both directions |
| WriteBatchEntry.ColumnFamilyVariantsAgree | utilities/write_batch_with_index/write_batch_with_index_internal.cc:54-73 | each column-family tag maps to the same WriteType as its default-family tag |
| WriteBatchEntry.TagToWriteType | utilities/write_batch_with_index/write_batch_with_index_internal.cc:53-89 | a tag is accepted exactly when it is 0x00 to 0x0F, 0x12 or 0x13, and never as kUnknownRecord |
| WriteBatchEntry.UnsignedTag | utilities/write_batch_with_index/write_batch_with_index_internal.cc:88 | static_cast<unsigned int> of a signed char: below 0x80 unchanged, otherwise sign-extended to 32 bits, same low byte |
| WriteBatchEntry.GetEntryFromDataOffset | utilities/write_batch_with_index/write_batch_with_index_internal.cc:30-91 | a null output is InvalidArgument; offset == size is NotFound; offset > size is InvalidArgument; otherwise the record from the offset is read, *type is the switch's kind, OK exactly for a known tag |
| WriteBatchEntry.DecoderStatusIgnored | utilities/write_batch_with_index/write_batch_with_index_internal.cc:50-90 | the decoder's own status never changes the answer: decoders agreeing on tag and fields give the same result |
| WriteBatchEntry.UnknownTagIsCorruption | utilities/write_batch_with_index/write_batch_with_index_internal.cc:86-88 | an unknown tag gives Corruption "unknown WriteBatch tag : N", N the tag's unsigned decimal value, with *type untouched |
| WriteBatchLookup.NewestFirst | utilities/write_batch_with_index/write_batch_with_index_internal.cc:112-140 | the entries visited are entries of the batch for the key, at most as many as the batch holds |
| WriteBatchLookup.Scan | utilities/write_batch_with_index/write_batch_with_index_internal.cc:135-184 | operands are only appended; kMergeInProgress means some operand was pushed or was already in progress; *s is not OK exactly when the result is kError |
| WriteBatchLookup.ScanThroughIgnored | utilities/write_batch_with_index/write_batch_with_index_internal.cc:157-161 | LogData and XID entries leave a running scan unchanged |
| WriteBatchLookup.Step | utilities/write_batch_with_index/write_batch_with_index_internal.cc:141-168 | a Merge appends its value to the operands and nothing else does; a Put sets entry_value and nothing else does; LogData and XID change nothing; otherwise the result is kError exactly for DeleteRange and unknown entries, and *s changes only to that entry's Corruption |
| WriteBatchLookup.Stops | utilities/write_batch_with_index/write_batch_with_index_internal.cc:169-181 | kNotFound never breaks; kMergeInProgress breaks exactly with overwrite_key; without overwrite_key the loop breaks exactly on kFound, kDeleted or kError |
| WriteBatchLookup.Resolve | utilities/write_batch_with_index/write_batch_with_index_internal.cc:186-224 | operands unchanged; a non-OK scan status is returned as is; *value untouched for kDeleted, kNotFound and kMergeInProgress; the result changes only when a Put or Delete has pending operands |
| WriteBatchLookup.MergeBase | utilities/write_batch_with_index/write_batch_with_index_internal.cc:206-208 | corrected merge base: the Put's value exactly when the scan found a Put, no existing value under a Delete; it agrees with the as-written base exactly on kFound |
| WriteBatchLookup.MergeBaseAsWritten | utilities/write_batch_with_index/write_batch_with_index_internal.cc:206-208 | as written, &entry_value is always passed, holding the scan's entry_value |
| WriteBatchLookup.BatchLookup | utilities/write_batch_with_index/write_batch_with_index_internal.cc:93-227 | no comparator gives kNotFound, OK, nothing touched; kError exactly when *s is not OK; operands only appended; *value untouched unless found; kMergeInProgress leaves new operands |
| WriteBatchLookup.BatchLookupAsWritten | utilities/write_batch_with_index/write_batch_with_index_internal.cc:93-227 | the as-written lookup has the same envelope: no comparator is kNotFound, kError exactly when *s is not OK, operands only appended |
| WriteBatchLookup.NewestFirstConcat | utilities/write_batch_with_index/write_batch_with_index_internal.cc:135-140 | later writes are visited first: the entries of a + b for a key are those of b, then those of a |
| WriteBatchLookup.ScanConcat | utilities/write_batch_with_index/write_batch_with_index_internal.cc:135-184 | a scan that passes a prefix without a break continues from the state it reached |
| WriteBatchLookup.NewestEntryDecides | utilities/write_batch_with_index/write_batch_with_index_internal.cc:135-184 | the newest non-skipped entry for the key takes the first step of the scan |
| WriteBatchLookup.OtherKeysIrrelevant | utilities/write_batch_with_index/write_batch_with_index_internal.cc:135-140 | inserting an entry for another key anywhere leaves the lookup unchanged |
| WriteBatchLookup.NewestPutWins | utilities/write_batch_with_index/write_batch_with_index_internal.cc:142-221 | a newest Put gives kFound, OK and the Put's value in *value |
| WriteBatchLookup.NewestDeleteWins | utilities/write_batch_with_index/write_batch_with_index_internal.cc:152-173 | a newest Delete or SingleDelete gives kDeleted, OK, *value untouched |
| WriteBatchLookup.UnexpectedEntryIsCorruption | utilities/write_batch_with_index/write_batch_with_index_internal.cc:162-173 | a range deletion or unknown entry for the key stops with kError and a Corruption naming its type, operands and *value untouched |
| WriteBatchLookup.OverwriteStopsAtNewestMerge | utilities/write_batch_with_index/write_batch_with_index_internal.cc:147-181 | with overwrite_key the scan stops at the newest Merge: kMergeInProgress with that one operand pushed |
| WriteBatchLookup.MergeValuesEmpty | utilities/write_batch_with_index/write_batch_with_index_internal.cc:147-150 | no operand is collected exactly when there is no Merge |
| WriteBatchLookup.ScanCollectsMerges | utilities/write_batch_with_index/write_batch_with_index_internal.cc:147-184 | without overwrite_key, Merges and skipped entries never break the scan and push every operand in the order visited |
| WriteBatchLookup.MergesWithoutBase | utilities/write_batch_with_index/write_batch_with_index_internal.cc:135-224 | Merges with no Put or Delete under them give kMergeInProgress with all operands newest first, or kNotFound with none; *value untouched |
| WriteBatchLookup.MergesThenEntry | utilities/write_batch_with_index/write_batch_with_index_internal.cc:135-184 | Merges over a Put or Delete: the scan ends at that entry with every operand pushed |
| WriteBatchLookup.MergesOverPut | utilities/write_batch_with_index/write_batch_with_index_internal.cc:186-217 | the full merge runs over the Put's value and all operands; kFound exactly when it succeeds, else kError with its status |
| WriteBatchLookup.MergesOverDelete | utilities/write_batch_with_index/write_batch_with_index_internal.cc:186-217 | with the corrected merge base (as written the base is &entry_value), a full merge under a Delete runs with no existing value; kFound exactly when it succeeds |
| WriteBatchLookup.MergeNeedsOperator | utilities/write_batch_with_index/write_batch_with_index_internal.cc:190-217 | pending operands with no column family or no merge operator give kError with the matching InvalidArgument, *value untouched |
| WriteBatchLookup.DeleteReadsAsEmptyPutAsWritten | utilities/write_batch_with_index/write_batch_with_index_internal.cc:206-208 | as written, a Delete under Merges reads exactly like a Put of the empty value |
| WriteBatchLookup.DeleteDiffersFromEmptyPut | utilities/write_batch_with_index/write_batch_with_index_internal.cc:206-208 | corrected, a merge operator that reports whether it saw an existing value tells a Delete from an empty Put |
| WriteBatchLookup.MergeContext.PushOperand | utilities/write_batch_with_index/write_batch_with_index_internal.cc:149 | appends one operand |
| WriteBatchLookup.ApplyEntry | utilities/write_batch_with_index/write_batch_with_index_internal.cc:141-168 | one pass of the switch on entry.type changes result, entry_value, the operands and *s as Step says |
| WriteBatchLookup.VisitEntry | utilities/write_batch_with_index/write_batch_with_index_internal.cc:135-184 | an entry for the key goes through the switch and breaks exactly when Stops holds; an entry for another key changes nothing |
| WriteBatchLookup.ScanBatch | utilities/write_batch_with_index/write_batch_with_index_internal.cc:112-184 | the backward loop leaves result, entry_value, the operands and *s exactly as Scan over the entries for the key, newest first |
| WriteBatchLookup.GetFromBatch | utilities/write_batch_with_index/write_batch_with_index_internal.cc:93-227 | result, *s, *value and the merge context's operands are exactly BatchLookup's (with the corrected merge base) |

## Left out

- **Request and result encoding.** `SerDeRead` and `SerDeWrite` are not modelled as byte formats. The decoded request, or the fault SerDeRead throws, is a parameter. stdout and stderr are append-only logs.
- **The compaction engine, `VersionSet::Recover`, the manifest writes and `SetCurrentFile`.** These are oracles that return a status, a fault or the recovered level files. `VersionEdit::EncodeTo`, `log::Writer` and `CreateDirIfMissing` are filesystem plumbing and are not modelled.
- **`params.version_set.To(versions)`.** Its effect on the host's version set is not modelled.
- **Engine scaffolding.** `Env::Default`, the file system, the table cache, the write controller, the write buffer manager, statistics, `EventLogger`, `LogBuffer` and the mutex are not modelled. The mutex survives only as the ghost trace Lock, Prepare, Unlock, Run.
- **The remaining arguments of `Compaction` and `CompactionJob`.** Compression, compression options, score, snapshots and the like are passed through to the engine oracle and are not modelled.
- **Plugin internals.** `PluginFactory::AcquirePlugin`, `json::parse`, `SerDe_DeSerialize` and the `ExtraBinder` registry are oracles. What a binder does once bound is not modelled.
- **`TERARK_VERIFY_F` and `TERARK_VERIFY_EQ`.** They are modelled as printing one line and aborting the process. For `TERARK_VERIFY_F` the line is the failed status's message; for `TERARK_VERIFY_EQ` it is the two operands in decimal. The file, line and expression prefix is not modelled, and neither is the code name `Status::ToString` puts in front of the message. The terark headers are not part of this model.
- **What the runtime prints on `std::terminate`.** A fault of another type that escapes both handlers, and a fault thrown by `Main`'s member initialisers, end the process. Whatever the C++ runtime then prints is not modelled; the model writes nothing to stderr for them.
- **The `CompactionJob` constructor.** Its construction and `Prepare` are one oracle step. Statistics the constructor writes, or a fault it throws, are folded into Prepare's outcome.
- **An empty `cf_paths`.** Indexing `cf_paths[0]` is undefined behaviour and is modelled as a crash.
- **A column family missing after `Recover`.** `GetColumnFamily(params.cf_id)` (line 199) can return null, and `cfd->current()` is then undefined behaviour. The `Recovery` oracle always yields the recovered files, so the model assumes the family exists.
- **The manifest file name format.** `DescriptorFileName` writes `dbname + "/MANIFEST-%06llu"`, as RocksDB's `file/filename.cc` does. That file is not part of this model.
- **Which extension writes what.** A job outcome carries what was written into the result as a whole (`JobWrites`). The model does not tie those writes to the binders `BoundTargets` reports, nor to the subcompaction index each product uses.
- **`job_id` is an `int`.** The model does not bound it to 32 bits. Negative ids are formatted as printf does.
- **The `__FILE__:__LINE__: function:` prefix of the diagnostic lines.** It is not modelled.
- CompactWorkerMain.Diagnostic: writes a caught Status's message where the source prints `Status::ToString()`, which adds the code name in front. Status::ToString is not part of this model.
- **Record decoding.** `ReadRecordFromWriteBatch` is a parameter, and its column family id is not used, as in the source.
- **The ValueType tag values.** They are RocksDB's `db/dbformat.h` values. That file is not part of this model.
- **The `WriteType` enumerator order.** It follows `include/rocksdb/utilities/write_batch_with_index.h`. That file is not part of this model.
- **The signedness of `char`.** The cast in the unknown-tag message assumes a signed `char`.
- **The skiplist index and its iterator.** The forward `Seek`/`Next` loop and the repositioning with `SeekToLast`/`Prev` are not modelled. The index is the column family's entries in insertion order. `ScanBatch` walks it from the newest entry and passes over entries for other keys. The sorted order of the skiplist, which makes the two walks visit the same entries, is not represented.
- **The check `if (!s->ok()) return kError` after the forward loop.** `*s` was just set to OK, so the branch cannot be taken. It is not modelled as a branch.
- **`MergeContext::GetOperands`.** The model does not reverse or copy the operands; the full merge receives them in the order they were pushed. The merge's statistics, logger and clock are not modelled.
- WriteBatchLookup.MergeValues: its own contract only bounds its length; the iff with "no Merge" is the separate lemma MergeValuesEmpty.

## Findings

| source | as written | input that shows it | evidently intended | confidence | as-written member | corrected member |
|---|---|---|---|---|---|---|
| tools/compact_worker.cc:79-90 | the translated `dir` is built but never returned, so control reaches the `THROW_STD` for every input | HOSTER_ROOT = "/h/", hostNodeDir = "/h/db" | `return dir;` after line 85, giving WORKER_ROOT + "db" | not executed; high | CompactWorkerPaths.GetWorkerNodeDirAsWritten, CompactWorkerPaths.GetWorkerNodeDirFallsThrough, CompactWorkerMain.MainAsWrittenNeverRuns | CompactWorkerPaths.GetWorkerNodeDir, CompactWorkerPaths.TranslateSubstitutesPrefix |
| tools/compact_worker.cc:57-64 | an unset variable with a non-null `Default` reaches the end of a function returning `const char*` with no return | GetEnvString("X", "d") with X unset | `return Default;` | not executed; high (no caller in this file passes a default) | CompactWorkerPaths.GetEnvStringAsWritten, CompactWorkerPaths.GetEnvStringDefaultIsLost | CompactWorkerPaths.GetEnvString, CompactWorkerPaths.GetEnvStringAgrees |
| utilities/write_batch_with_index/write_batch_with_index_internal.cc:206-208 | `&entry_value` is passed to the full merge for a Delete as well, so Merges over a Delete see an existing empty value | Delete(k), then Merge(k, x), then a lookup of k without overwrite_key | pass no existing value (`nullptr`) under a Delete | not executed; medium | WriteBatchLookup.BatchLookupAsWritten, WriteBatchLookup.DeleteReadsAsEmptyPutAsWritten | WriteBatchLookup.BatchLookup, WriteBatchLookup.DeleteDiffersFromEmptyPut |
