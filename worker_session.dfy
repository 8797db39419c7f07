/** What main in tools/compact_worker.cc builds before it runs the engine:
    the six extensions, the storage paths, the synthetic VersionEdit, the
    recovered inputs and the compaction descriptor. */
module CompactWorkerSession {
  import opened Wrappers
  import opened RocksStatus
  import opened CompactWorkerTypes
  import opened CompactWorkerPaths
  import Decimal

  // ---------------------------------------------------------------------
  // CreatePluginTpl and ExtraBind

  /** ExtraBind for both channels: a channel is bound exactly when a binder is
      registered for the object's own reported class name. */
  function BoundTargets(role: Role, obj: PluginObject, factory: PluginFactory): (r: seq<BindTarget>)
    ensures PerSubcompact in r <==> factory.hasBinder(role, PerSubcompact, obj.name)
    ensures Aggregated in r <==> factory.hasBinder(role, Aggregated, obj.name)
    ensures |r| <= 2
  {
    (if factory.hasBinder(role, PerSubcompact, obj.name) then [PerSubcompact] else [])
    + (if factory.hasBinder(role, Aggregated, obj.name) then [Aggregated] else [])
  }

  /** CreatePluginTpl: an empty class name leaves the option unset and binds
      nothing; otherwise the factory builds the object, prior state is
      restored when some is given, and the object is bound. */
  function CreatePlugin(role: Role, param: ObjectRpcParam, factory: PluginFactory): (r: Result<PluginSlot, Fault>)
    ensures param.clazz == [] ==> r == Success(Unset)
    ensures param.clazz != [] && r.Success? ==> r.value.Created?
    ensures r.Failure? <==>
              param.clazz != [] &&
              (factory.acquire(role, param.clazz, param.params).Failure? ||
               (param.serde != [] &&
                factory.deserialize(role, param.clazz, param.serde, factory.acquire(role, param.clazz, param.params).value).Failure?))
    ensures r.Success? && r.value.Created? ==> r.value.bound == BoundTargets(role, r.value.obj, factory)
  {
    if param.clazz == [] then Success(Unset)
    else
      match factory.acquire(role, param.clazz, param.params)
      case Failure(f) => Failure(f)
      case Success(obj) =>
        var restored :=
          if param.serde == [] then Success(obj)
          else factory.deserialize(role, param.clazz, param.serde, obj);
        match restored
        case Failure(f) => Failure(f)
        case Success(o) => Success(Created(o, BoundTargets(role, o, factory)))
  }

  /** The CreatePluginTpl calls for roles, in order; the first fault stops
      the sequence. */
  function CreatePluginsFrom(roles: seq<Role>, params: PluginParams, factory: PluginFactory): (r: Result<seq<PluginSlot>, Fault>)
    ensures r.Success? <==> forall i :: 0 <= i < |roles| ==> CreatePlugin(roles[i], params.For(roles[i]), factory).Success?
    ensures r.Success? ==>
              |r.value| == |roles| &&
              forall i :: 0 <= i < |roles| ==> Success(r.value[i]) == CreatePlugin(roles[i], params.For(roles[i]), factory)
    ensures r.Failure? ==>
              exists i :: 0 <= i < |roles| &&
                CreatePlugin(roles[i], params.For(roles[i]), factory) == Failure(r.error) &&
                forall k :: 0 <= k < i ==> CreatePlugin(roles[k], params.For(roles[k]), factory).Success?
    decreases |roles|
  {
    if roles == [] then Success([])
    else
      match CreatePlugin(roles[0], params.For(roles[0]), factory)
      case Failure(f) => Failure(f)
      case Success(slot) =>
        match CreatePluginsFrom(roles[1..], params, factory)
        case Failure(f) =>
          assert forall k :: 1 <= k < |roles| ==> roles[k] == roles[1..][k - 1];
          Failure(f)
        case Success(rest) => Success([slot] + rest)
  }

  function CreatePlugins(params: PluginParams, factory: PluginFactory): Result<seq<PluginSlot>, Fault> {
    CreatePluginsFrom(PluginRoles, params, factory)
  }

  /** The comparator's timestamp size: that of the user comparator when one
      was created, 0 for the built-in bytewise comparator otherwise. */
  function ComparatorTimestampSize(plugins: seq<PluginSlot>): (n: nat)
    requires |plugins| == |PluginRoles|
    ensures plugins[1].Unset? ==> n == 0
    ensures plugins[1].Created? ==> n == plugins[1].obj.timestampSize
  {
    match plugins[1]
    case Created(obj, _) => obj.timestampSize
    case Unset => 0
  }

  /** Slot 1 is the user comparator's, created at line 141. */
  lemma ComparatorSlot()
    ensures PluginRoles[1] == UserComparator
  {
  }

  // ---------------------------------------------------------------------
  // db_paths

  predicate AllMapped(roots: Roots, cfPaths: seq<DbPath>) {
    forall i :: 0 <= i < |cfPaths| ==> roots.hosterRoot <= cfPaths[i].path
  }

  /** The position of the first cf_path outside HOSTER_ROOT, |cfPaths| when
      there is none. */
  function FirstUnmapped(roots: Roots, cfPaths: seq<DbPath>): (i: nat)
    ensures i <= |cfPaths|
    ensures forall k :: 0 <= k < i ==> roots.hosterRoot <= cfPaths[k].path
    ensures i < |cfPaths| ==> !(roots.hosterRoot <= cfPaths[i].path)
    decreases |cfPaths|
  {
    if cfPaths == [] || !(roots.hosterRoot <= cfPaths[0].path) then 0
    else 1 + FirstUnmapped(roots, cfPaths[1..])
  }

  /** imm_dbo.db_paths: every cf_path translated with its target size, then
      the job directory with an unlimited target size; the first unmapped
      cf_path throws. */
  function DbPathsOf(roots: Roots, cfPaths: seq<DbPath>, outputDir: string): (r: Result<seq<DbPath>, Fault>)
    ensures r.Success? <==> AllMapped(roots, cfPaths)
    ensures r.Success? ==>
              |r.value| == |cfPaths| + 1 &&
              (forall i :: 0 <= i < |cfPaths| ==>
                 r.value[i] == DbPath(GetWorkerNodeDir(roots, cfPaths[i].path).value, cfPaths[i].targetSize)) &&
              r.value[|cfPaths|] == DbPath(outputDir, UINT64_MAX)
    ensures r.Failure? ==> r.error == UnmappedFault(roots, cfPaths[FirstUnmapped(roots, cfPaths)].path)
  {
    var first := FirstUnmapped(roots, cfPaths);
    if first < |cfPaths| then Failure(UnmappedFault(roots, cfPaths[first].path))
    else
      Success(seq(|cfPaths|, i requires 0 <= i < |cfPaths| && AllMapped(roots, cfPaths) =>
                    DbPath(GetWorkerNodeDir(roots, cfPaths[i].path).value, cfPaths[i].targetSize))
              + [DbPath(outputDir, UINT64_MAX)])
  }

  /** The emplace_back loop of main that fills imm_dbo.db_paths. */
  method BuildDbPaths(roots: Roots, cfPaths: seq<DbPath>, outputDir: string) returns (r: Result<seq<DbPath>, Fault>)
    ensures r == DbPathsOf(roots, cfPaths, outputDir)
  {
    var dbPaths: seq<DbPath> := [];
    for i := 0 to |cfPaths|
      invariant |dbPaths| == i
      invariant forall k :: 0 <= k < i ==> roots.hosterRoot <= cfPaths[k].path
      invariant forall k :: 0 <= k < i ==>
                  dbPaths[k] == DbPath(GetWorkerNodeDir(roots, cfPaths[k].path).value, cfPaths[k].targetSize)
    {
      var dir := GetWorkerNodeDir(roots, cfPaths[i].path);
      if dir.Failure? {
        assert FirstUnmapped(roots, cfPaths) == i;
        return Failure(dir.error);
      }
      dbPaths := dbPaths + [DbPath(dir.value, cfPaths[i].targetSize)];
    }
    dbPaths := dbPaths + [DbPath(outputDir, UINT64_MAX)];
    r := Success(dbPaths);
    assert DbPathsOf(roots, cfPaths, outputDir).value == dbPaths;
  }

  // ---------------------------------------------------------------------
  // The synthetic VersionEdit

  /** One level's files, each tagged with that level. */
  function LevelEntries(l: InputLevel): (r: seq<NewFile>)
    ensures |r| == |l.files|
    ensures forall j :: 0 <= j < |r| ==> r[j] == NewFile(l.level, l.files[j])
  {
    seq(|l.files|, j requires 0 <= j < |l.files| => NewFile(l.level, l.files[j]))
  }

  /** Every input file, level after level, in the order the levels and their
      files are listed. */
  function FlattenInputs(inputs: seq<InputLevel>): seq<NewFile>
    decreases |inputs|
  {
    if inputs == [] then []
    else FlattenInputs(inputs[..|inputs| - 1]) + LevelEntries(inputs[|inputs| - 1])
  }

  function FileCount(inputs: seq<InputLevel>): nat
    decreases |inputs|
  {
    if inputs == [] then 0
    else FileCount(inputs[..|inputs| - 1]) + |inputs[|inputs| - 1].files|
  }

  lemma {:induction false} FlattenInputsLength(inputs: seq<InputLevel>)
    ensures |FlattenInputs(inputs)| == FileCount(inputs)
    decreases |inputs|
  {
    if inputs != [] {
      FlattenInputsLength(inputs[..|inputs| - 1]);
    }
  }

  /** File j of level i sits at position FileCount(inputs[..i]) + j: every
      file appears, once, tagged with its own level, in iteration order. */
  lemma {:induction false} FlattenInputsPosition(inputs: seq<InputLevel>, i: nat, j: nat)
    requires i < |inputs| && j < |inputs[i].files|
    ensures |FlattenInputs(inputs)| == FileCount(inputs)
    ensures FileCount(inputs[..i]) + j < FileCount(inputs)
    ensures FlattenInputs(inputs)[FileCount(inputs[..i]) + j] == NewFile(inputs[i].level, inputs[i].files[j])
    decreases |inputs|
  {
    FlattenInputsLength(inputs);
    var init := inputs[..|inputs| - 1];
    FlattenInputsLength(init);
    if i == |inputs| - 1 {
      assert inputs[..i] == init;
    } else {
      assert init[..i] == inputs[..i];
      assert init[i] == inputs[i];
      FlattenInputsPosition(init, i, j);
    }
  }

  /** The edit main writes: log number 0, the host's next file number and last
      sequence, one column family, and every input file. */
  function SyntheticEdit(params: CompactionParams): (r: VersionEdit)
    ensures r.logNumber == 0
    ensures r.nextFile == params.versionSet.nextFileNumber && r.lastSequence == params.versionSet.lastSequence
    ensures r.columnFamily == params.cfId && r.newColumnFamily == params.cfName
    ensures |r.newFiles| == FileCount(params.inputs)
  {
    FlattenInputsLength(params.inputs);
    VersionEdit(0, params.versionSet.nextFileNumber, params.versionSet.lastSequence,
                params.cfId, params.cfName, FlattenInputs(params.inputs))
  }

  /** The SetLogNumber, SetNextFile, SetLastSequence, SetColumnFamily and
      AddColumnFamily calls and the nested AddFile loops of main. */
  method BuildVersionEdit(params: CompactionParams) returns (edit: VersionEdit)
    ensures edit == SyntheticEdit(params)
    ensures edit.logNumber == 0
    ensures edit.nextFile == params.versionSet.nextFileNumber
    ensures edit.lastSequence == params.versionSet.lastSequence
    ensures edit.columnFamily == params.cfId && edit.newColumnFamily == params.cfName
    ensures |edit.newFiles| == FileCount(params.inputs)
  {
    var logNumber := 0;
    edit := VersionEdit(0, 0, 0, 0, "", []);
    edit := edit.(logNumber := logNumber);
    edit := edit.(nextFile := params.versionSet.nextFileNumber);
    edit := edit.(lastSequence := params.versionSet.lastSequence);
    edit := edit.(columnFamily := params.cfId);
    edit := edit.(newColumnFamily := params.cfName);
    ghost var header := edit;
    for i := 0 to |params.inputs|
      invariant edit == header.(newFiles := FlattenInputs(params.inputs[..i]))
    {
      var onelevel := params.inputs[i];
      for j := 0 to |onelevel.files|
        invariant edit == header.(newFiles := FlattenInputs(params.inputs[..i]) + LevelEntries(onelevel)[..j])
      {
        edit := edit.(newFiles := edit.newFiles + [NewFile(onelevel.level, onelevel.files[j])]);
        assert LevelEntries(onelevel)[..j + 1] == LevelEntries(onelevel)[..j] + [NewFile(onelevel.level, onelevel.files[j])];
      }
      assert LevelEntries(onelevel)[..|onelevel.files|] == LevelEntries(onelevel);
      assert params.inputs[..i + 1][..i] == params.inputs[..i];
    }
    assert params.inputs[..|params.inputs|] == params.inputs;
    FlattenInputsLength(params.inputs);
  }

  /** DescriptorFileName: dbname + "/MANIFEST-%06llu". */
  function DescriptorFileName(dbname: string, number: nat): (r: string)
    ensures |r| >= |dbname| + 16 && r[..|dbname| + 10] == dbname + "/MANIFEST-"
    ensures Decimal.AllDigits(r[|dbname| + 10..]) && Decimal.Value(r[|dbname| + 10..]) == number
  {
    var digits := Decimal.FormatInt(number, 6);
    Decimal.ValueOfPadded(number, 6);
    var r := dbname + "/MANIFEST-" + digits;
    assert r[|dbname| + 10..] == digits;
    r
  }

  // ---------------------------------------------------------------------
  // Input replacement

  /** Each level keeps its number and takes the recovered LevelFiles(level). */
  function ReplacedInputs(inputs: seq<InputLevel>, levelFiles: int -> seq<FileMeta>): (r: seq<InputLevel>)
    ensures |r| == |inputs|
    ensures forall i :: 0 <= i < |r| ==> r[i].level == inputs[i].level && r[i].files == levelFiles(inputs[i].level)
  {
    seq(|inputs|, i requires 0 <= i < |inputs| => inputs[i].(files := levelFiles(inputs[i].level)))
  }

  /** The copy of params.inputs and the loop that overwrites each level's
      files in place. */
  method RebuildInputs(paramsInputs: seq<InputLevel>, levelFiles: int -> seq<FileMeta>) returns (inputs: seq<InputLevel>)
    ensures |inputs| == |paramsInputs|
    ensures forall i :: 0 <= i < |inputs| ==>
              inputs[i].level == paramsInputs[i].level && inputs[i].files == levelFiles(paramsInputs[i].level)
    ensures inputs == ReplacedInputs(paramsInputs, levelFiles)
  {
    var a := new InputLevel[|paramsInputs|](i requires 0 <= i < |paramsInputs| => paramsInputs[i]);
    for i := 0 to a.Length
      invariant forall k :: 0 <= k < i ==> a[k] == paramsInputs[k].(files := levelFiles(paramsInputs[k].level))
      invariant forall k :: i <= k < a.Length ==> a[k] == paramsInputs[k]
    {
      a[i] := a[i].(files := levelFiles(a[i].level));
    }
    inputs := a[..];
  }

  // ---------------------------------------------------------------------
  // Bootstrap: everything main does before taking the lock

  /** Why the bootstrap stopped: a thrown fault; a failed TERARK_VERIFY_F,
      which prints its message and aborts; or undefined behaviour
      (cf_paths[0] of an empty cf_paths). */
  datatype Stop = Thrown(fault: Fault) | Abort(message: string) | Undefined

  datatype Session = Session(
    plugins: seq<PluginSlot>,
    outputDir: string,
    dbPaths: seq<DbPath>,
    cfOptionsPaths: seq<DbPath>,
    manifest: string,
    edit: VersionEdit,
    compaction: Compaction)

  /** The Compaction constructor's arguments that the model keeps. */
  function MakeCompaction(params: CompactionParams, inputs: seq<InputLevel>): (r: Compaction)
    ensures r.inputs == inputs
    ensures |params.cfPaths| < UINT32_MODULUS ==> r.outputPathId == |params.cfPaths|
    ensures r.outputPathId < UINT32_MODULUS
    ensures r.outputLevel == params.outputLevel && r.maxSubcompactions == params.maxSubcompactions
    ensures r.targetFileSize == params.targetFileSize && r.maxCompactionBytes == params.maxCompactionBytes
    ensures r.grandparents == params.grandparents
  {
    Compaction(inputs, params.outputLevel, params.targetFileSize, params.maxCompactionBytes,
               |params.cfPaths| % UINT32_MODULUS, params.maxSubcompactions, params.grandparents,
               params.manualCompaction, params.deletionCompaction, params.compactionReason)
  }

  /** The block of main that writes the manifest and recovers from it: each
      of the four steps is checked by TERARK_VERIFY_F, so the first failing
      one aborts with its status, and nothing here throws. */
  function WriteManifest(outputDir: string, params: CompactionParams, engine: Engine): (r: Result<Recovery, Stop>)
    ensures var manifest := DescriptorFileName(outputDir, params.versionSet.manifestFileNumber);
            var s1 := engine.newManifestFile(manifest);
            var s2 := engine.addRecord(manifest, SyntheticEdit(params));
            var s3 := engine.setCurrentFile(outputDir, params.versionSet.manifestFileNumber);
            var s4 := engine.recover(outputDir, SyntheticEdit(params));
            (r.Success? <==> s1.IsOk() && s2.IsOk() && s3.IsOk() && s4.status.IsOk()) &&
            (!s1.IsOk() ==> r == Failure(Abort(s1.msg))) &&
            (s1.IsOk() && !s2.IsOk() ==> r == Failure(Abort(s2.msg))) &&
            (s1.IsOk() && s2.IsOk() && !s3.IsOk() ==> r == Failure(Abort(s3.msg))) &&
            (s1.IsOk() && s2.IsOk() && s3.IsOk() && !s4.status.IsOk() ==> r == Failure(Abort(s4.status.msg))) &&
            (r.Success? ==> r.value == s4)
    ensures r.Failure? ==> r.error.Abort?
  {
    var edit := SyntheticEdit(params);
    var manifest := DescriptorFileName(outputDir, params.versionSet.manifestFileNumber);
    var s1 := engine.newManifestFile(manifest);
    if !s1.IsOk() then Failure(Abort(s1.msg))
    else
      var s2 := engine.addRecord(manifest, edit);
      if !s2.IsOk() then Failure(Abort(s2.msg))
      else
        var s3 := engine.setCurrentFile(outputDir, params.versionSet.manifestFileNumber);
        if !s3.IsOk() then Failure(Abort(s3.msg))
        else
          var recovered := engine.recover(outputDir, edit);
          if !recovered.status.IsOk() then Failure(Abort(recovered.status.msg))
          else Success(recovered)
  }

  /** Lines 146 to 212 of main, once the extensions exist: paths, the
      manifest round trip through Recover, and the compaction descriptor. */
  function Provision(roots: Roots, params: CompactionParams, plugins: seq<PluginSlot>, engine: Engine): (r: Result<Session, Stop>)
    requires |params.cfPaths| > 0
    ensures MakeOutputPath(roots, params).Failure? ==> r == Failure(Thrown(MakeOutputPath(roots, params).error))
    ensures MakeOutputPath(roots, params).Success? && !AllMapped(roots, params.cfPaths) ==>
              r == Failure(Thrown(UnmappedFault(roots, params.cfPaths[FirstUnmapped(roots, params.cfPaths)].path)))
    ensures MakeOutputPath(roots, params).Success? && AllMapped(roots, params.cfPaths) &&
            WriteManifest(MakeOutputPath(roots, params).value, params, engine).Failure? ==>
              r == Failure(WriteManifest(MakeOutputPath(roots, params).value, params, engine).error)
    ensures r.Success? <==>
              MakeOutputPath(roots, params).Success? && AllMapped(roots, params.cfPaths) &&
              WriteManifest(MakeOutputPath(roots, params).value, params, engine).Success?
    ensures r.Success? ==> MakeOutputPath(roots, params) == Success(r.value.outputDir) && r.value.plugins == plugins
    ensures r.Success? ==> DbPathsOf(roots, params.cfPaths, r.value.outputDir) == Success(r.value.dbPaths)
    ensures r.Success? ==> r.value.edit == SyntheticEdit(params)
    ensures r.Success? ==> engine.recover(r.value.outputDir, r.value.edit).status.IsOk()
  {
    match MakeOutputPath(roots, params)
    case Failure(f) => Failure(Thrown(f))
    case Success(outputDir) =>
      match DbPathsOf(roots, params.cfPaths, outputDir)
      case Failure(f) => Failure(Thrown(f))
      case Success(dbPaths) =>
        match WriteManifest(outputDir, params, engine)
        case Failure(stop) => Failure(stop)
        case Success(recovered) =>
          var inputs := ReplacedInputs(params.inputs, recovered.levelFiles);
          Success(Session(plugins, outputDir, dbPaths, dbPaths,
                          DescriptorFileName(outputDir, params.versionSet.manifestFileNumber),
                          SyntheticEdit(params), MakeCompaction(params, inputs)))
  }

  /** Lines 136 to 212 of main: the six extensions, then the session; an
      empty cf_paths is undefined behaviour at cf_paths[0]. */
  function Bootstrap(roots: Roots, params: CompactionParams, factory: PluginFactory, engine: Engine): (r: Result<Session, Stop>)
    ensures CreatePlugins(params.plugins, factory).Failure? ==>
              r == Failure(Thrown(CreatePlugins(params.plugins, factory).error))
    ensures CreatePlugins(params.plugins, factory).Success? && |params.cfPaths| == 0 ==> r == Failure(Undefined)
    ensures CreatePlugins(params.plugins, factory).Success? && |params.cfPaths| > 0 ==>
              r == Provision(roots, params, CreatePlugins(params.plugins, factory).value, engine)
    ensures r.Success? <==>
              CreatePlugins(params.plugins, factory).Success? && |params.cfPaths| > 0 &&
              Provision(roots, params, CreatePlugins(params.plugins, factory).value, engine).Success?
    ensures r.Success? ==> r.value.plugins == CreatePlugins(params.plugins, factory).value
    ensures r.Success? ==> |r.value.plugins| == |PluginRoles|
    ensures r.Success? ==> |params.cfPaths| > 0 && MakeOutputPath(roots, params) == Success(r.value.outputDir)
  {
    match CreatePlugins(params.plugins, factory)
    case Failure(f) => Failure(Thrown(f))
    case Success(plugins) =>
      if |params.cfPaths| == 0 then Failure(Undefined)
      else Provision(roots, params, plugins, engine)
  }

  /** Bootstrap over the as-written translator: once the extensions exist,
      MakeOutputPath at line 147 throws, whatever the request. */
  function BootstrapAsWritten(roots: Roots, params: CompactionParams, factory: PluginFactory): (r: Result<Session, Stop>)
    ensures r.Failure?
    ensures CreatePlugins(params.plugins, factory).Failure? ==>
              r == Failure(Thrown(CreatePlugins(params.plugins, factory).error))
    ensures CreatePlugins(params.plugins, factory).Success? && |params.cfPaths| > 0 ==>
              r == Failure(Thrown(UnmappedFault(roots, params.cfPaths[0].path)))
  {
    match CreatePlugins(params.plugins, factory)
    case Failure(f) => Failure(Thrown(f))
    case Success(_) =>
      if |params.cfPaths| == 0 then Failure(Undefined)
      else Failure(Thrown(MakeOutputPathAsWritten(roots, params).error))
  }

  /** A bootstrapped session: cfo.cf_paths equals db_paths, the output path id
      is the number of cf_paths and indexes the job directory (while that
      number fits the uint32_t it is cast to), every input level keeps its
      number and takes the recovered files, and the output directory is the
      translated first cf_path followed by "/job-%08d". */
  lemma SessionShape(roots: Roots, params: CompactionParams, plugins: seq<PluginSlot>, engine: Engine)
    requires |params.cfPaths| > 0
    requires Provision(roots, params, plugins, engine).Success?
    ensures var s := Provision(roots, params, plugins, engine).value;
            var levelFiles := engine.recover(s.outputDir, s.edit).levelFiles;
            s.cfOptionsPaths == s.dbPaths &&
            |s.dbPaths| == |params.cfPaths| + 1 &&
            (|params.cfPaths| < UINT32_MODULUS ==>
               s.compaction.outputPathId == |params.cfPaths| &&
               s.dbPaths[s.compaction.outputPathId] == DbPath(s.outputDir, UINT64_MAX)) &&
            |s.compaction.inputs| == |params.inputs| &&
            (forall i :: 0 <= i < |params.inputs| ==>
               s.compaction.inputs[i] == InputLevel(params.inputs[i].level, levelFiles(params.inputs[i].level))) &&
            s.compaction.outputLevel == params.outputLevel &&
            s.compaction.maxSubcompactions == params.maxSubcompactions &&
            s.outputDir == GetWorkerNodeDir(roots, params.cfPaths[0].path).value + JobDirName(params.jobId)
  {
    var outputDir := MakeOutputPath(roots, params).value;
    var dbPaths := DbPathsOf(roots, params.cfPaths, outputDir).value;
    var edit := SyntheticEdit(params);
    var recovered := WriteManifest(outputDir, params, engine).value;
    assert recovered == engine.recover(outputDir, edit);
    var inputs := ReplacedInputs(params.inputs, recovered.levelFiles);
    var s := Provision(roots, params, plugins, engine).value;
    assert s == Session(plugins, outputDir, dbPaths, dbPaths,
                        DescriptorFileName(outputDir, params.versionSet.manifestFileNumber),
                        edit, MakeCompaction(params, inputs));
  }
}
