/** The values the remote compaction worker (tools/compact_worker.cc) reads,
    builds and returns, and the collaborators it drives but does not define:
    the plugin factory and the compaction engine, both given as functions. */
module CompactWorkerTypes {
  import opened Wrappers
  import opened RocksStatus

  /** A thrown C++ exception, classified by which of main's two handlers
      (std::exception, Status) can catch it. */
  datatype Fault =
    | StdException(what: string)
    | StatusThrown(status: Status)
    | ForeignThrow
  {
    predicate Catchable() {
      !ForeignThrow?
    }
  }

  /** WORKER_ROOT and HOSTER_ROOT, each with its trailing '/' (the members
      g_worker_root and g_hoster_root of class Main). */
  datatype Roots = Roots(workerRoot: string, hosterRoot: string)

  /** A storage directory with its target size (DbPath). */
  datatype DbPath = DbPath(path: string, targetSize: nat)

  const UINT64_MAX: nat := 0xFFFF_FFFF_FFFF_FFFF
  const UINT32_MODULUS: nat := 0x1_0000_0000

  datatype FileMeta = FileMeta(number: nat, fileSize: nat, smallestKey: string, largestKey: string)

  /** One level of compaction input (CompactionInputFiles). */
  datatype InputLevel = InputLevel(level: int, files: seq<FileMeta>)

  /** The host's version-set numbers carried by the request. */
  datatype VersionSetSnapshot = VersionSetSnapshot(nextFileNumber: nat, lastSequence: nat, manifestFileNumber: nat)

  /** A serialized extension: class name, JSON constructor parameters, prior state. */
  datatype ObjectRpcParam = ObjectRpcParam(clazz: string, params: string, serde: string)

  /** The six extension slots main fills, in the order it fills them. */
  datatype Role =
    | CompactionFilterFactory
    | UserComparator
    | MergeOperator
    | TableFactory
    | PrefixExtractor
    | SstPartitionerFactory

  const PluginRoles: seq<Role> :=
    [CompactionFilterFactory, UserComparator, MergeOperator, TableFactory, PrefixExtractor, SstPartitionerFactory]

  datatype PluginParams = PluginParams(
    compactionFilterFactory: ObjectRpcParam,
    userComparator: ObjectRpcParam,
    mergeOperator: ObjectRpcParam,
    tableFactory: ObjectRpcParam,
    prefixExtractor: ObjectRpcParam,
    sstPartitionerFactory: ObjectRpcParam)
  {
    function For(role: Role): ObjectRpcParam {
      match role
      case CompactionFilterFactory => compactionFilterFactory
      case UserComparator => userComparator
      case MergeOperator => mergeOperator
      case TableFactory => tableFactory
      case PrefixExtractor => prefixExtractor
      case SstPartitionerFactory => sstPartitionerFactory
    }
  }

  /** The decoded request (CompactionParams), restricted to the fields main reads. */
  datatype CompactionParams = CompactionParams(
    jobId: int,
    cfId: nat,
    cfName: string,
    inputs: seq<InputLevel>,
    outputLevel: int,
    targetFileSize: nat,
    maxCompactionBytes: nat,
    maxSubcompactions: nat,
    grandparents: seq<FileMeta>,
    versionSet: VersionSetSnapshot,
    cfPaths: seq<DbPath>,
    fullHistoryTsLow: string,
    plugins: PluginParams,
    manualCompaction: bool,
    deletionCompaction: bool,
    compactionReason: nat)

  /** An extension object as the worker sees it: the class name its Name()
      reports, and the timestamp size it reports when it is a comparator. */
  datatype PluginObject = PluginObject(name: string, timestampSize: nat)

  /** The two result channels an extension can be bound to. */
  datatype BindTarget = PerSubcompact | Aggregated

  /** What one CreatePluginTpl call leaves behind: the option field unset, or
      set to an object together with the channels it was bound to. */
  datatype PluginSlot = Unset | Created(obj: PluginObject, bound: seq<BindTarget>)

  /** The plugin registry, JSON parsing, SerDe_DeSerialize and the extra-binder
      registry: foreign factories, given as functions. */
  datatype PluginFactory = PluginFactory(
    acquire: (Role, string, string) -> Result<PluginObject, Fault>,
    deserialize: (Role, string, string, PluginObject) -> Result<PluginObject, Fault>,
    hasBinder: (Role, BindTarget, string) -> bool)

  /** One file added to the synthetic VersionEdit, with its level. */
  datatype NewFile = NewFile(level: int, meta: FileMeta)

  /** The abstract contents of a VersionEdit record. */
  datatype VersionEdit = VersionEdit(
    logNumber: nat,
    nextFile: nat,
    lastSequence: nat,
    columnFamily: nat,
    newColumnFamily: string,
    newFiles: seq<NewFile>)

  /** The compaction descriptor handed to the engine (class Compaction). */
  datatype Compaction = Compaction(
    inputs: seq<InputLevel>,
    outputLevel: int,
    targetFileSize: nat,
    maxCompactionBytes: nat,
    outputPathId: nat,
    maxSubcompactions: nat,
    grandparents: seq<FileMeta>,
    manualCompaction: bool,
    deletionCompaction: bool,
    compactionReason: nat)

  /** What VersionSet::Recover yields: its status and the recovered storage
      state, reduced to LevelFiles. */
  datatype Recovery = Recovery(status: Status, levelFiles: int -> seq<FileMeta>)

  datatype JobStats = JobStats(bytesRead: nat, bytesWritten: nat, outputFiles: nat)

  /** What the job has written into the result object in place by some
      point: its statistics through &results->job_stats, and what the
      extensions bound to results->sub_compacts and to the aggregated fields
      reported, slot by slot and role by role. */
  datatype JobWrites = JobWrites(jobStats: JobStats, slots: seq<SubcompactResult>, aggregated: map<Role, string>)

  /** The job writes into the result from its construction on.
      CompactionJob::Prepare either returns or throws, leaving behind what
      was written so far. */
  datatype PrepareOutcome = Prepared | PrepareThrew(fault: Fault, writes: JobWrites)

  /** CompactionJob::Run either returns a status or throws; either way the
      result holds what the job has written by then. */
  datatype RunOutcome = Returned(status: Status, writes: JobWrites) | Threw(fault: Fault, writes: JobWrites)

  /** The engine and file-system calls main makes, as functions of what they
      are given: NewWritableFile on the manifest path, AddRecord of the edit,
      SetCurrentFile(dbname, manifest number), VersionSet::Recover,
      the construction and Prepare of the CompactionJob, and its Run. */
  datatype Engine = Engine(
    newManifestFile: string -> Status,
    addRecord: (string, VersionEdit) -> Status,
    setCurrentFile: (string, nat) -> Status,
    recover: (string, VersionEdit) -> Recovery,
    prepare: Compaction -> PrepareOutcome,
    run: Compaction -> RunOutcome)

  /** One per-subcompaction slot of results->sub_compacts: the statistics
      strings extensions write for that subcompaction, by role. */
  datatype SubcompactResult = SubcompactResult(extra: map<Role, string>)

  const EmptySubcompact: SubcompactResult := SubcompactResult(map[])

  /** A snapshot of CompactionResults, as SerDeWrite encodes it. */
  datatype ResultsValue = ResultsValue(
    status: Status,
    jobStats: JobStats,
    subCompacts: seq<SubcompactResult>,
    aggregated: map<Role, string>)

  const InitialResults: ResultsValue := ResultsValue(OK, JobStats(0, 0, 0), [], map[])

  /** The lock and engine steps of main, in the order they are taken. */
  datatype Step = Lock | Prepare | Unlock | RunEngine

  const FullTrace: seq<Step> := [Lock, Prepare, Unlock, RunEngine]

  /** How the process ends: main returns a code, or the process dies
      (abort from a failed verification, std::terminate, undefined behaviour). */
  datatype Exit = ExitCode(code: int) | Terminated
}
