/** Main::main of tools/compact_worker.cc: the execution envelope that
    resizes the result, bootstraps the session, runs the engine between the
    lock steps, and writes the result on the normal path and on each catch path. */
module CompactWorkerMain {
  import opened Wrappers
  import opened RocksStatus
  import opened CompactWorkerTypes
  import opened CompactWorkerPaths
  import opened CompactWorkerSession
  import Decimal

  /** std::vector::resize on results->sub_compacts: the first slots are kept,
      new ones are default-constructed. */
  function Resized(slots: seq<SubcompactResult>, n: nat): (r: seq<SubcompactResult>)
    ensures |r| == n
    ensures forall i :: 0 <= i < n && i < |slots| ==> r[i] == slots[i]
    ensures forall i :: |slots| <= i < n ==> r[i] == EmptySubcompact
  {
    if n <= |slots| then slots[..n] else slots + seq(n - |slots|, _ => EmptySubcompact)
  }

  /** The line written to stderr by each catch path (the __FILE__, __LINE__
      and function-name prefix is left out): the two handlers are told apart
      by their text, and each carries what was thrown. */
  function Diagnostic(f: Fault): (line: string)
    requires f.Catchable()
    ensures "caught exception: " <= line <==> f.StdException?
    ensures f.StdException? ==> line[|"caught exception: "|..] == f.what
    ensures f.StatusThrown? ==> "caught Status: " <= line && line[|"caught Status: "|..] == f.status.msg
  {
    match f
    case StdException(what) => "caught exception: " + what
    case StatusThrown(s) =>
      var line := "caught Status: " + s.msg;
      assert line[7] != "caught exception: "[7];
      line
  }

  /** What a failed TERARK_VERIFY_EQ prints before it aborts: both operands
      in decimal (the file, line and expression prefix is left out). */
  function VerifyEqMessage(x: nat, y: nat): string {
    Decimal.Digits(x) + " " + Decimal.Digits(y)
  }

  /** Everything one run of main leaves behind: how it ended, the final
      result object, what went to stdout and stderr, and the lock steps taken. */
  datatype Execution = Execution(
    exit: Exit,
    results: ResultsValue,
    emitted: seq<ResultsValue>,
    diagnostics: seq<string>,
    trace: seq<Step>)

  /** A fault reaching main's handlers: a std::exception or a Status is caught,
      the result is written with one diagnostic and 1 returned; any other
      type escapes to std::terminate with nothing written by main. */
  function Caught(f: Fault, results: ResultsValue, trace: seq<Step>): (r: Execution)
    ensures r.exit == ExitCode(1) <==> f.Catchable()
    ensures r.exit.ExitCode? || r.exit == Terminated
    ensures r.exit != ExitCode(0)
    ensures r.results == results && r.trace == trace
    ensures r.emitted == (if f.Catchable() then [results] else [])
    ensures f.Catchable() ==> r.diagnostics == [Diagnostic(f)]
    ensures !f.Catchable() ==> r.diagnostics == [] && r.exit == Terminated
  {
    if f.Catchable() then Execution(ExitCode(1), results, [results], [Diagnostic(f)], trace)
    else Execution(Terminated, results, [], [], trace)
  }

  /** The TERARK_VERIFY_EQ on the comparator's timestamp size; without a
      user comparator the bytewise comparator's size, 0, is compared. */
  predicate TimestampMismatch(params: CompactionParams, plugins: seq<PluginSlot>)
    requires |plugins| == |PluginRoles|
    ensures params.fullHistoryTsLow == [] ==> !TimestampMismatch(params, plugins)
    ensures params.fullHistoryTsLow != [] && plugins[1].Unset? ==> TimestampMismatch(params, plugins)
  {
    params.fullHistoryTsLow != [] && ComparatorTimestampSize(plugins) != |params.fullHistoryTsLow|
  }

  /** The result once sub_compacts is resized to the request's
      max_subcompactions: the state a throw before the job finds it in. */
  function Sized(params: CompactionParams): (r: ResultsValue)
    ensures r == InitialResults.(subCompacts := r.subCompacts)
    ensures |r.subCompacts| == params.maxSubcompactions
    ensures forall i :: 0 <= i < |r.subCompacts| ==> r.subCompacts[i] == EmptySubcompact
  {
    InitialResults.(subCompacts := Resized(InitialResults.subCompacts, params.maxSubcompactions))
  }

  /** The result object once the job's writes land in it: the statistics
      replaced, each reported slot's entries written into that slot of the
      already sized vector, and the aggregated entries written; the status
      is not touched. */
  function Written(results: ResultsValue, w: JobWrites): (r: ResultsValue)
    ensures r.status == results.status && r.jobStats == w.jobStats
    ensures |r.subCompacts| == |results.subCompacts|
    ensures forall i :: 0 <= i < |r.subCompacts| && i < |w.slots| ==>
              r.subCompacts[i].extra == results.subCompacts[i].extra + w.slots[i].extra
    ensures forall i :: |w.slots| <= i < |r.subCompacts| ==> r.subCompacts[i] == results.subCompacts[i]
    ensures r.aggregated == results.aggregated + w.aggregated
  {
    results.(jobStats := w.jobStats,
             subCompacts := seq(|results.subCompacts|, i requires 0 <= i < |results.subCompacts| =>
                             if i < |w.slots| then SubcompactResult(results.subCompacts[i].extra + w.slots[i].extra)
                             else results.subCompacts[i]),
             aggregated := results.aggregated + w.aggregated)
  }

  /** A fault thrown by the CompactionJob, with what the job had written
      into the result by then. */
  datatype JobThrow = JobThrow(fault: Fault, writes: JobWrites)

  /** The fault Prepare throws, or else the one Run throws; None when Run
      returns. */
  function JobFault(engine: Engine, c: Compaction): (r: Option<JobThrow>)
    ensures r.None? <==> engine.prepare(c).Prepared? && engine.run(c).Returned?
    ensures engine.prepare(c).PrepareThrew? ==> r == Some(JobThrow(engine.prepare(c).fault, engine.prepare(c).writes))
    ensures engine.prepare(c).Prepared? && engine.run(c).Threw? ==> r == Some(JobThrow(engine.run(c).fault, engine.run(c).writes))
  {
    match engine.prepare(c)
    case PrepareThrew(f, w) => Some(JobThrow(f, w))
    case Prepared =>
      match engine.run(c)
      case Threw(f, w) => Some(JobThrow(f, w))
      case Returned(_, _) => None
  }

  /** Lines 213 to 263 once the session exists: lock, verify the timestamp
      size, construct the job and Prepare, unlock, Run, then store Run's
      status and write the result; a fault from Prepare or Run is caught
      with what the job had written into the result. */
  function Launch(params: CompactionParams, session: Session, engine: Engine, sized: ResultsValue): (r: Execution)
    requires |session.plugins| == |PluginRoles|
    ensures r.exit == ExitCode(0) <==>
              !TimestampMismatch(params, session.plugins) && engine.prepare(session.compaction).Prepared? &&
              engine.run(session.compaction).Returned?
    ensures r.exit == ExitCode(0) ==>
              r.results == Written(sized, engine.run(session.compaction).writes).(status := engine.run(session.compaction).status)
    ensures var j := JobFault(engine, session.compaction);
            r.exit == ExitCode(1) <==> !TimestampMismatch(params, session.plugins) && j.Some? && j.value.fault.Catchable()
    ensures var j := JobFault(engine, session.compaction);
            r.exit == ExitCode(1) ==> r.results == Written(sized, j.value.writes) && r.diagnostics == [Diagnostic(j.value.fault)]
    ensures var j := JobFault(engine, session.compaction);
            r.exit == Terminated <==> TimestampMismatch(params, session.plugins) || (j.Some? && !j.value.fault.Catchable())
    ensures TimestampMismatch(params, session.plugins) ==>
              r.results == sized && r.trace == [Lock] &&
              r.diagnostics == [VerifyEqMessage(ComparatorTimestampSize(session.plugins), |params.fullHistoryTsLow|)]
    ensures r.exit.ExitCode? ==> r.emitted == [r.results] && (r.exit.code == 0 || r.exit.code == 1)
    ensures r.exit.Terminated? ==> r.emitted == []
    ensures r.exit.Terminated? && !TimestampMismatch(params, session.plugins) ==> r.diagnostics == []
    ensures r.exit == ExitCode(0) ==> r.diagnostics == []
    ensures r.exit != ExitCode(0) ==> r.results.status == sized.status
    ensures |r.results.subCompacts| == |sized.subCompacts|
    ensures r.trace != [] && r.trace <= FullTrace
    ensures r.trace == FullTrace <==> !TimestampMismatch(params, session.plugins) && engine.prepare(session.compaction).Prepared?
  {
    if TimestampMismatch(params, session.plugins) then
      Execution(Terminated, sized, [], [VerifyEqMessage(ComparatorTimestampSize(session.plugins), |params.fullHistoryTsLow|)], [Lock])
    else
      match engine.prepare(session.compaction)
      case PrepareThrew(f, w) => Caught(f, Written(sized, w), [Lock, Prepare])
      case Prepared =>
        match engine.run(session.compaction)
        case Threw(f, w) => Caught(f, Written(sized, w), FullTrace)
        case Returned(status, w) =>
          var done := Written(sized, w).(status := status);
          Execution(ExitCode(0), done, [done], [], FullTrace)
  }

  /** What stderr holds after a failed bootstrap: the handler's line, the
      aborting check's message, or nothing. */
  function StopDiagnostics(stop: Stop): seq<string> {
    match stop
    case Thrown(f) => if f.Catchable() then [Diagnostic(f)] else []
    case Abort(m) => [m]
    case Undefined => []
  }

  /** The rest of main once the bootstrap has ended one way or the other. */
  function Dispatch(params: CompactionParams, boot: Result<Session, Stop>, engine: Engine): (r: Execution)
    requires boot.Success? ==> |boot.value.plugins| == |PluginRoles|
    ensures |r.emitted| == (if r.exit.ExitCode? then 1 else 0)
    ensures r.exit.ExitCode? ==> r.emitted == [r.results] && (r.exit.code == 0 || r.exit.code == 1)
    ensures r.exit == ExitCode(0) ==> r.diagnostics == []
    ensures r.exit == ExitCode(1) ==> |r.diagnostics| == 1
    ensures |r.diagnostics| <= 1
    ensures r.trace <= FullTrace
    ensures |r.results.subCompacts| == params.maxSubcompactions
    ensures r.exit != ExitCode(0) ==> r.results.status == OK
    ensures boot.Failure? ==> r.results == Sized(params) && r.trace == []
    ensures boot.Failure? ==>
              (r.exit == ExitCode(1) <==> boot.error.Thrown? && boot.error.fault.Catchable()) &&
              (r.exit != ExitCode(1) ==> r.exit == Terminated)
    ensures boot.Failure? ==> r.diagnostics == StopDiagnostics(boot.error)
    ensures boot.Success? ==> r == Launch(params, boot.value, engine, Sized(params))
  {
    match boot
    case Failure(Thrown(f)) => Caught(f, Sized(params), [])
    case Failure(Abort(m)) => Execution(Terminated, Sized(params), [], [m], [])
    case Failure(Undefined) => Execution(Terminated, Sized(params), [], [], [])
    case Success(session) => Launch(params, session, engine, Sized(params))
  }

  /** What main does, given the decoded request (or the fault SerDeRead threw). */
  function Execute(roots: Roots, input: Result<CompactionParams, Fault>, factory: PluginFactory, engine: Engine): (r: Execution)
    ensures |r.emitted| == (if r.exit.ExitCode? then 1 else 0)
    ensures r.exit.ExitCode? ==> r.emitted == [r.results] && (r.exit.code == 0 || r.exit.code == 1)
    ensures r.exit == ExitCode(0) ==> r.diagnostics == []
    ensures r.exit == ExitCode(1) ==> |r.diagnostics| == 1
    ensures |r.diagnostics| <= 1
    ensures r.trace <= FullTrace
    ensures input.Success? ==> |r.results.subCompacts| == input.value.maxSubcompactions
    ensures input.Failure? ==> r.results == InitialResults && r.trace == []
    ensures input.Failure? ==>
              (r.exit == ExitCode(1) <==> input.error.Catchable()) &&
              (input.error.Catchable() ==> r.diagnostics == [Diagnostic(input.error)]) &&
              (!input.error.Catchable() ==> r.exit == Terminated && r.diagnostics == [])
    ensures input.Success? ==> r == Dispatch(input.value, Bootstrap(roots, input.value, factory, engine), engine)
  {
    match input
    case Failure(f) => Caught(f, InitialResults, [])
    case Success(params) => Dispatch(params, Bootstrap(roots, params, factory, engine), engine)
  }

  /** The fault that reaches main's two handlers, if any: SerDeRead's, the
      bootstrap's, or the CompactionJob's. */
  function FaultReachingHandlers(roots: Roots, input: Result<CompactionParams, Fault>, factory: PluginFactory, engine: Engine)
    : Option<Fault>
  {
    match input
    case Failure(f) => Some(f)
    case Success(params) =>
      match Bootstrap(roots, params, factory, engine)
      case Failure(stop) => if stop.Thrown? then Some(stop.fault) else None
      case Success(s) =>
        if TimestampMismatch(params, s.plugins) then None
        else
          match JobFault(engine, s.compaction)
          case Some(j) => Some(j.fault)
          case None => None
  }

  /** main dies without any fault being thrown: a failed TERARK_VERIFY_F or
      TERARK_VERIFY_EQ, or undefined behaviour. */
  predicate DiesWithoutThrow(roots: Roots, input: Result<CompactionParams, Fault>, factory: PluginFactory, engine: Engine) {
    match input
    case Failure(_) => false
    case Success(params) =>
      match Bootstrap(roots, params, factory, engine)
      case Failure(stop) => !stop.Thrown?
      case Success(s) => TimestampMismatch(params, s.plugins)
  }

  /** main returns 1 exactly when a std::exception or a Status reaches its
      handlers, from any step, and it then writes the result once and the
      handler's line. */
  lemma CatchableFaultReturnsOne(roots: Roots, input: Result<CompactionParams, Fault>, factory: PluginFactory, engine: Engine)
    ensures var r := Execute(roots, input, factory, engine);
            var f := FaultReachingHandlers(roots, input, factory, engine);
            (r.exit == ExitCode(1) <==> f.Some? && f.value.Catchable()) &&
            (r.exit == ExitCode(1) ==> r.emitted == [r.results] && r.diagnostics == [Diagnostic(f.value)])
  {
    var r := Execute(roots, input, factory, engine);
    if input.Success? {
      var b := Bootstrap(roots, input.value, factory, engine);
      if b.Success? {
        assert r == Launch(input.value, b.value, engine, Sized(input.value));
      }
    }
  }

  /** The process ends without main returning exactly when a check aborts,
      the behaviour is undefined, or a fault of another type escapes both
      handlers; nothing is then written to stdout. */
  lemma TerminatedExactly(roots: Roots, input: Result<CompactionParams, Fault>, factory: PluginFactory, engine: Engine)
    ensures var r := Execute(roots, input, factory, engine);
            var f := FaultReachingHandlers(roots, input, factory, engine);
            (r.exit == Terminated <==> DiesWithoutThrow(roots, input, factory, engine) || (f.Some? && !f.value.Catchable())) &&
            (r.exit == Terminated ==> r.emitted == [])
  {
    var r := Execute(roots, input, factory, engine);
    if input.Success? {
      var b := Bootstrap(roots, input.value, factory, engine);
      if b.Success? {
        assert r == Launch(input.value, b.value, engine, Sized(input.value));
      }
    }
  }

  /** main returns 0 exactly when the engine's Run returned, and the
      result then carries Run's status verbatim, failed or not, and what the
      job wrote into it. */
  lemma ExitZeroCarriesRunStatus(roots: Roots, input: Result<CompactionParams, Fault>, factory: PluginFactory, engine: Engine)
    ensures var r := Execute(roots, input, factory, engine);
            r.exit == ExitCode(0) <==>
              input.Success? && Bootstrap(roots, input.value, factory, engine).Success? &&
              r.trace == FullTrace &&
              engine.run(Bootstrap(roots, input.value, factory, engine).value.compaction).Returned?
    ensures var r := Execute(roots, input, factory, engine);
            r.exit == ExitCode(0) ==>
              var run := engine.run(Bootstrap(roots, input.value, factory, engine).value.compaction);
              r.results == Written(Sized(input.value), run.writes).(status := run.status) && r.emitted == [r.results]
  {
    var r := Execute(roots, input, factory, engine);
    if input.Failure? {
      assert r == Caught(input.error, InitialResults, []);
    } else {
      var params := input.value;
      var b := Bootstrap(roots, params, factory, engine);
      assert r == Dispatch(params, b, engine);
      if b.Success? {
        assert r == Launch(params, b.value, engine, Sized(params));
      }
    }
  }

  /** A failed engine status is data, not a fault: given a session that
      reaches Run, a Run returning any status exits 0 and emits that status. */
  lemma EngineFailureIsolated(roots: Roots, params: CompactionParams, factory: PluginFactory, engine: Engine)
    ensures var b := Bootstrap(roots, params, factory, engine);
            var r := Execute(roots, Success(params), factory, engine);
            b.Success? && !TimestampMismatch(params, b.value.plugins) &&
            engine.prepare(b.value.compaction).Prepared? && engine.run(b.value.compaction).Returned? ==>
              r.exit == ExitCode(0) &&
              r.emitted == [r.results] &&
              r.results.status == engine.run(b.value.compaction).status &&
              |r.results.subCompacts| == params.maxSubcompactions
  {
  }

  /** The catch paths write the result that exists at the throw, exactly
      once, and return 1. Its status is still the default OK, since only a
      returning Run assigns it. Its statistics are zero for a fault raised
      before the CompactionJob exists; otherwise it holds what the job had
      written when it threw. */
  lemma CatchPathKeepsDefaultStatus(roots: Roots, input: Result<CompactionParams, Fault>, factory: PluginFactory, engine: Engine)
    ensures var r := Execute(roots, input, factory, engine);
            r.exit == ExitCode(1) ==>
              r.emitted == [r.results] && r.results.status == OK && |r.diagnostics| == 1 &&
              (Prepare !in r.trace ==> r.results.jobStats == JobStats(0, 0, 0))
    ensures var r := Execute(roots, input, factory, engine);
            r.exit == ExitCode(1) && input.Success? && Bootstrap(roots, input.value, factory, engine).Success? ==>
              var j := JobFault(engine, Bootstrap(roots, input.value, factory, engine).value.compaction);
              Prepare in r.trace && j.Some? && r.results == Written(Sized(input.value), j.value.writes)
  {
    var r := Execute(roots, input, factory, engine);
    if input.Success? {
      var b := Bootstrap(roots, input.value, factory, engine);
      if b.Success? {
        assert r == Launch(input.value, b.value, engine, Sized(input.value));
        if r.exit == ExitCode(1) {
          assert r.trace == [Lock, Prepare] || r.trace == FullTrace;
        }
      }
    }
  }

  /** main over the request as written, with the translator that never
      returns: nothing reaches the lock. Once the extensions exist and
      cf_paths is not empty, the unmapped-directory fault of line 147 is
      caught, so main returns 1 and writes the sized default result. */
  lemma MainAsWrittenNeverRuns(roots: Roots, params: CompactionParams, factory: PluginFactory, engine: Engine)
    ensures var r := Dispatch(params, BootstrapAsWritten(roots, params, factory), engine);
            r.exit != ExitCode(0) && r.trace == [] && r.results == Sized(params)
    ensures var r := Dispatch(params, BootstrapAsWritten(roots, params, factory), engine);
            CreatePlugins(params.plugins, factory).Success? && |params.cfPaths| > 0 ==>
              r.exit == ExitCode(1) && r.emitted == [Sized(params)] &&
              r.diagnostics == [Diagnostic(UnmappedFault(roots, params.cfPaths[0].path))]
  {
  }

  /** Run is only reached after Prepare ran under the lock and the lock was
      released. */
  lemma LockReleasedBeforeRun(roots: Roots, input: Result<CompactionParams, Fault>, factory: PluginFactory, engine: Engine)
    ensures var t := Execute(roots, input, factory, engine).trace;
            (Prepare in t ==> [Lock, Prepare] <= t) &&
            (RunEngine in t ==> t == [Lock, Prepare, Unlock, RunEngine])
  {
    PrefixOfFullTrace(Execute(roots, input, factory, engine).trace);
  }

  lemma PrefixOfFullTrace(t: seq<Step>)
    requires t <= FullTrace
    ensures (Prepare in t ==> [Lock, Prepare] <= t) &&
            (RunEngine in t ==> t == [Lock, Prepare, Unlock, RunEngine])
  {
    if Prepare in t {
      assert |t| >= 2;
      assert t[..2] == [Lock, Prepare];
    }
    if RunEngine in t {
      assert |t| == 4;
    }
  }

  // ---------------------------------------------------------------------
  // The objects main updates in place

  /** The CompactionResults object main allocates and fills. */
  class CompactionResults {
    var status: Status
    var jobStats: JobStats
    var subCompacts: seq<SubcompactResult>
    var aggregated: map<Role, string>

    constructor ()
      ensures Value() == InitialResults
    {
      status := OK;
      jobStats := JobStats(0, 0, 0);
      subCompacts := [];
      aggregated := map[];
    }

    function Value(): ResultsValue
      reads this
    {
      ResultsValue(status, jobStats, subCompacts, aggregated)
    }

    method ResizeSubCompacts(n: nat)
      modifies this
      ensures Value() == old(Value()).(subCompacts := Resized(old(subCompacts), n))
    {
      subCompacts := Resized(subCompacts, n);
    }

    /** The job's writes into the object: through &results->job_stats, and
        by the extensions bound to sub_compacts and to the aggregated fields. */
    method RecordJobWrites(w: JobWrites)
      modifies this
      ensures Value() == Written(old(Value()), w)
    {
      var v := Written(Value(), w);
      jobStats, subCompacts, aggregated := v.jobStats, v.subCompacts, v.aggregated;
    }

    /** results->status = s1. */
    method SetStatus(s: Status)
      modifies this
      ensures Value() == old(Value()).(status := s)
    {
      status := s;
    }
  }

  /** stdout and stderr, as append-only logs. */
  class ProcessStreams {
    var stdout: seq<ResultsValue>
    var stderr: seq<string>

    constructor ()
      ensures stdout == [] && stderr == []
    {
      stdout := [];
      stderr := [];
    }

    /** SerDeWrite(stdout, results). */
    method SerDeWrite(results: CompactionResults)
      modifies this
      ensures stdout == old(stdout) + [results.Value()] && stderr == old(stderr)
    {
      stdout := stdout + [results.Value()];
    }

    method WriteDiagnostic(line: string)
      modifies this
      ensures stderr == old(stderr) + [line] && stdout == old(stdout)
    {
      stderr := stderr + [line];
    }
  }

  /** The source's class Main: the two roots read when it is constructed,
      and its main method. */
  class Worker {
    const roots: Roots
    /** The lock and engine steps taken so far. */
    ghost var trace: seq<Step>

    constructor (roots: Roots)
      ensures this.roots == roots && trace == []
    {
      this.roots := roots;
      trace := [];
    }

    /** One of main's catch handlers, or none when the type escapes both. */
    method Catch(f: Fault, results: CompactionResults, io: ProcessStreams) returns (exit: Exit)
      modifies io
      ensures var c := Caught(f, results.Value(), []);
              exit == c.exit && io.stdout == old(io.stdout) + c.emitted && io.stderr == old(io.stderr) + c.diagnostics
    {
      if f.Catchable() {
        io.SerDeWrite(results);
        io.WriteDiagnostic(Diagnostic(f));
        exit := ExitCode(1);
      } else {
        exit := Terminated;
      }
    }

    /** Lines 146 to 212 of main, with the loops that fill db_paths, the
        edit and the inputs. */
    method ProvisionSession(params: CompactionParams, plugins: seq<PluginSlot>, engine: Engine)
      returns (r: Result<Session, Stop>)
      requires |params.cfPaths| > 0
      ensures r == Provision(roots, params, plugins, engine)
    {
      var outputDir := MakeOutputPath(roots, params);
      if outputDir.Failure? {
        return Failure(Thrown(outputDir.error));
      }
      var dbPaths := BuildDbPaths(roots, params.cfPaths, outputDir.value);
      if dbPaths.Failure? {
        return Failure(Thrown(dbPaths.error));
      }
      var newDb := BuildVersionEdit(params);
      var manifest := DescriptorFileName(outputDir.value, params.versionSet.manifestFileNumber);
      var s1 := engine.newManifestFile(manifest);
      if !s1.IsOk() {
        return Failure(Abort(s1.msg));
      }
      var s2 := engine.addRecord(manifest, newDb);
      if !s2.IsOk() {
        return Failure(Abort(s2.msg));
      }
      var s3 := engine.setCurrentFile(outputDir.value, params.versionSet.manifestFileNumber);
      if !s3.IsOk() {
        return Failure(Abort(s3.msg));
      }
      var recovered := engine.recover(outputDir.value, newDb);
      if !recovered.status.IsOk() {
        return Failure(Abort(recovered.status.msg));
      }
      var inputs := RebuildInputs(params.inputs, recovered.levelFiles);
      var outputPathId := |params.cfPaths| % UINT32_MODULUS;
      var compaction := Compaction(inputs, params.outputLevel, params.targetFileSize, params.maxCompactionBytes,
                                   outputPathId, params.maxSubcompactions, params.grandparents,
                                   params.manualCompaction, params.deletionCompaction, params.compactionReason);
      r := Success(Session(plugins, outputDir.value, dbPaths.value, dbPaths.value, manifest, newDb, compaction));
    }

    /** Lines 213 to 263 of main once the session exists, on the result
        object and the streams. */
    method LaunchJob(params: CompactionParams, session: Session, engine: Engine, results: CompactionResults, io: ProcessStreams)
      returns (exit: Exit)
      requires |session.plugins| == |PluginRoles|
      modifies this, results, io
      ensures var e := Launch(params, session, engine, old(results.Value()));
              exit == e.exit && results.Value() == e.results && io.stdout == old(io.stdout) + e.emitted &&
              io.stderr == old(io.stderr) + e.diagnostics && trace == old(trace) + e.trace
    {
      trace := trace + [Lock];
      if TimestampMismatch(params, session.plugins) {
        io.WriteDiagnostic(VerifyEqMessage(ComparatorTimestampSize(session.plugins), |params.fullHistoryTsLow|));
        exit := Terminated;
        return;
      }
      trace := trace + [Prepare];
      var prepared := engine.prepare(session.compaction);
      if prepared.PrepareThrew? {
        results.RecordJobWrites(prepared.writes);
        exit := Catch(prepared.fault, results, io);
        return;
      }
      trace := trace + [Unlock];
      trace := trace + [RunEngine];
      var outcome := engine.run(session.compaction);
      results.RecordJobWrites(outcome.writes);
      if outcome.Threw? {
        exit := Catch(outcome.fault, results, io);
        return;
      }
      results.SetStatus(outcome.status);
      io.SerDeWrite(results);
      exit := ExitCode(0);
    }

    /** Lines 136 to 212 of main: the extensions, then the session. */
    method BootstrapSession(params: CompactionParams, factory: PluginFactory, engine: Engine)
      returns (r: Result<Session, Stop>)
      ensures r == Bootstrap(roots, params, factory, engine)
    {
      var plugins := CreatePlugins(params.plugins, factory);
      if plugins.Failure? {
        return Failure(Thrown(plugins.error));
      }
      if |params.cfPaths| == 0 {
        return Failure(Undefined);
      }
      r := ProvisionSession(params, plugins.value, engine);
    }

    /** Lines 213 to 263 of main, once the bootstrap has ended. */
    method Serve(params: CompactionParams, boot: Result<Session, Stop>, engine: Engine,
                 results: CompactionResults, io: ProcessStreams)
      returns (exit: Exit)
      requires boot.Success? ==> |boot.value.plugins| == |PluginRoles|
      requires results.Value() == Sized(params)
      modifies this, results, io
      ensures var e := Dispatch(params, boot, engine);
              exit == e.exit && results.Value() == e.results && io.stdout == old(io.stdout) + e.emitted &&
              io.stderr == old(io.stderr) + e.diagnostics && trace == old(trace) + e.trace
    {
      match boot
      case Failure(Thrown(f)) =>
        exit := Catch(f, results, io);
      case Failure(Abort(m)) =>
        io.WriteDiagnostic(m);
        exit := Terminated;
      case Failure(Undefined) =>
        exit := Terminated;
      case Success(s) =>
        exit := LaunchJob(params, s, engine, results, io);
    }

    /** main: its exit, its output and its lock steps are those Execute gives. */
    method Run(input: Result<CompactionParams, Fault>, factory: PluginFactory, engine: Engine, io: ProcessStreams)
      returns (exit: Exit)
      modifies this, io
      ensures var e := Execute(roots, input, factory, engine);
              exit == e.exit && io.stdout == old(io.stdout) + e.emitted &&
              io.stderr == old(io.stderr) + e.diagnostics && trace == old(trace) + e.trace
    {
      var results := new CompactionResults();
      if input.Failure? {
        exit := Catch(input.error, results, io);
        return;
      }
      var params := input.value;
      results.ResizeSubCompacts(params.maxSubcompactions);
      var boot := BootstrapSession(params, factory, engine);
      exit := Serve(params, boot, engine, results, io);
    }
  }

  /** The whole process: class Main's member initialisers read the roots before
      main runs and outside its try block, so a missing variable ends the
      process with nothing written; otherwise main runs once. */
  method RunProcess(env: Env, input: Result<CompactionParams, Fault>, factory: PluginFactory, engine: Engine)
    returns (exit: Exit, stdout: seq<ResultsValue>, stderr: seq<string>)
    ensures LoadRoots(env).Failure? ==> exit == Terminated && stdout == [] && stderr == []
    ensures LoadRoots(env).Success? ==>
              var e := Execute(LoadRoots(env).value, input, factory, engine);
              exit == e.exit && stdout == e.emitted && stderr == e.diagnostics
    ensures |stdout| == (if exit.ExitCode? then 1 else 0)
  {
    var roots := LoadRoots(env);
    if roots.Failure? {
      return Terminated, [], [];
    }
    var io := new ProcessStreams();
    var m := new Worker(roots.value);
    exit := m.Run(input, factory, engine, io);
    stdout, stderr := io.stdout, io.stderr;
  }
}
