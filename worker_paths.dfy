/** Environment lookup and host-to-worker path translation of the compaction
    worker (tools/compact_worker.cc, GetEnvString to MakeOutputPath). */
module CompactWorkerPaths {
  import opened Wrappers
  import opened CompactWorkerTypes
  import Decimal

  type Env = map<string, string>

  function MissingEnvFault(name: string): Fault {
    StdException("missing env var: " + name)
  }

  // ---------------------------------------------------------------------
  // GetEnvString

  /** The three ways GetEnvString can end as written. */
  datatype EnvRead = Read(value: string) | Throws(fault: Fault) | FallsOffEnd

  /** GetEnvString as written: when the variable is unset and a default is
      given, control reaches the end of a value-returning function. */
  function GetEnvStringAsWritten(env: Env, name: string, default: Option<string>): (r: EnvRead)
    ensures name in env <==> r.Read?
    ensures r.Read? ==> r.value == env[name]
    ensures r.Throws? <==> name !in env && default.None?
    ensures r.Throws? ==> r.fault == MissingEnvFault(name)
  {
    if name in env then Read(env[name])
    else if default.None? then Throws(MissingEnvFault(name))
    else FallsOffEnd
  }

  /** GetEnvString as evidently intended: the default is returned when the
      variable is unset. */
  function GetEnvString(env: Env, name: string, default: Option<string>): (r: Result<string, Fault>)
    ensures r.Success? <==> name in env || default.Some?
    ensures name in env ==> r == Success(env[name])
    ensures name !in env && default.Some? ==> r == Success(default.value)
    ensures r.Failure? ==> r.error == MissingEnvFault(name)
  {
    if name in env then Success(env[name])
    else if default.None? then Failure(MissingEnvFault(name))
    else Success(default.value)
  }

  /** The two agree except where the source falls off the end. */
  lemma GetEnvStringAgrees(env: Env, name: string, default: Option<string>)
    ensures GetEnvStringAsWritten(env, name, default).FallsOffEnd?
            <==> name !in env && default.Some?
    ensures GetEnvStringAsWritten(env, name, default).Read?
            ==> GetEnvString(env, name, default) == Success(GetEnvStringAsWritten(env, name, default).value)
    ensures GetEnvStringAsWritten(env, name, default).Throws?
            ==> GetEnvString(env, name, default) == Failure(GetEnvStringAsWritten(env, name, default).fault)
  {
  }

  /** The input that shows the missing return: an unset variable with a default. */
  lemma GetEnvStringDefaultIsLost(name: string, default: string)
    ensures GetEnvStringAsWritten(map[], name, Some(default)) == FallsOffEnd
    ensures GetEnvString(map[], name, Some(default)) == Success(default)
  {
  }

  // ---------------------------------------------------------------------
  // GetDirFromEnv

  /** The normalisation GetDirFromEnv applies: a '/' is pushed when the value
      is non-empty and does not already end with one. */
  function WithTrailingSlash(dir: string): (r: string)
    ensures dir == [] ==> r == []
    ensures dir != [] && dir[|dir| - 1] == '/' ==> r == dir
    ensures dir != [] && dir[|dir| - 1] != '/' ==> r == dir + "/"
  {
    if dir != [] && dir[|dir| - 1] != '/' then dir + "/" else dir
  }

  /** Normalising twice is normalising once; the result is empty or ends in
      '/', and it extends its input by at most that one '/'. */
  lemma WithTrailingSlashIdempotent(dir: string)
    ensures WithTrailingSlash(WithTrailingSlash(dir)) == WithTrailingSlash(dir)
    ensures var r := WithTrailingSlash(dir);
            (r == [] || r[|r| - 1] == '/') && dir <= r && |r| <= |dir| + 1
  {
  }

  function GetDirFromEnv(env: Env, name: string, default: Option<string>): (r: Result<string, Fault>)
    ensures r.Success? <==> GetEnvString(env, name, default).Success?
    ensures r.Success? ==> r.value == WithTrailingSlash(GetEnvString(env, name, default).value)
    ensures r.Failure? ==> r.error == MissingEnvFault(name)
  {
    match GetEnvString(env, name, default)
    case Failure(f) => Failure(f)
    case Success(v) => Success(WithTrailingSlash(v))
  }

  /** The member initialisers of class Main, in declaration order:
      WORKER_ROOT is read before HOSTER_ROOT, and neither has a default. */
  function LoadRoots(env: Env): (r: Result<Roots, Fault>)
    ensures r.Success? <==> "WORKER_ROOT" in env && "HOSTER_ROOT" in env
    ensures r.Success? ==> r.value == Roots(WithTrailingSlash(env["WORKER_ROOT"]), WithTrailingSlash(env["HOSTER_ROOT"]))
    ensures "WORKER_ROOT" !in env ==> r == Failure(MissingEnvFault("WORKER_ROOT"))
    ensures "WORKER_ROOT" in env && "HOSTER_ROOT" !in env ==> r == Failure(MissingEnvFault("HOSTER_ROOT"))
  {
    match GetDirFromEnv(env, "WORKER_ROOT", None)
    case Failure(f) => Failure(f)
    case Success(worker) =>
      match GetDirFromEnv(env, "HOSTER_ROOT", None)
      case Failure(f) => Failure(f)
      case Success(hoster) => Success(Roots(worker, hoster))
  }

  // ---------------------------------------------------------------------
  // GetWorkerNodeDir

  function UnmappedFault(roots: Roots, hostNodeDir: string): Fault {
    StdException("hostNodeDir = '" + hostNodeDir + "' does not start with HOSTER_ROOT='" + roots.hosterRoot + "'")
  }

  /** GetWorkerNodeDir as written: the translated directory is built when the
      prefix matches, but never returned, so the throw is reached on every input. */
  function GetWorkerNodeDirAsWritten(roots: Roots, hostNodeDir: string): (r: Result<string, Fault>)
    ensures r == Failure(UnmappedFault(roots, hostNodeDir))
  {
    if roots.hosterRoot <= hostNodeDir then
      var suffixLen := |hostNodeDir| - |roots.hosterRoot|;
      var dir := roots.workerRoot + hostNodeDir[|roots.hosterRoot|..];
      assert |dir| == |roots.workerRoot| + suffixLen;
      Failure(UnmappedFault(roots, hostNodeDir))
    else
      Failure(UnmappedFault(roots, hostNodeDir))
  }

  /** GetWorkerNodeDir with the missing `return dir;`: the host root prefix
      is replaced by the worker root and the rest is kept verbatim. */
  function GetWorkerNodeDir(roots: Roots, hostNodeDir: string): (r: Result<string, Fault>)
    ensures r.Success? <==> roots.hosterRoot <= hostNodeDir
    ensures r.Success? ==> roots.workerRoot <= r.value
    ensures r.Success? ==> |r.value| == |roots.workerRoot| + |hostNodeDir| - |roots.hosterRoot|
    ensures r.Success? ==> roots.hosterRoot + r.value[|roots.workerRoot|..] == hostNodeDir
    ensures r.Failure? ==> r.error == UnmappedFault(roots, hostNodeDir)
  {
    if roots.hosterRoot <= hostNodeDir then
      Success(roots.workerRoot + hostNodeDir[|roots.hosterRoot|..])
    else
      Failure(UnmappedFault(roots, hostNodeDir))
  }

  /** translate(hoster_root + suffix) == worker_root + suffix, for every suffix. */
  lemma TranslateSubstitutesPrefix(roots: Roots, suffix: string)
    ensures GetWorkerNodeDir(roots, roots.hosterRoot + suffix) == Success(roots.workerRoot + suffix)
  {
    assert (roots.hosterRoot + suffix)[|roots.hosterRoot|..] == suffix;
  }

  /** Distinct host directories are translated to distinct worker directories. */
  lemma TranslateInjective(roots: Roots, a: string, b: string)
    requires GetWorkerNodeDir(roots, a).Success? && GetWorkerNodeDir(roots, b).Success?
    requires GetWorkerNodeDir(roots, a) == GetWorkerNodeDir(roots, b)
    ensures a == b
  {
  }

  /** The input that shows the fall-through: a prefixed directory, which the
      corrected function maps and the written one rejects. */
  lemma GetWorkerNodeDirFallsThrough(roots: Roots, suffix: string)
    ensures GetWorkerNodeDirAsWritten(roots, roots.hosterRoot + suffix).Failure?
    ensures GetWorkerNodeDir(roots, roots.hosterRoot + suffix) == Success(roots.workerRoot + suffix)
  {
    TranslateSubstitutesPrefix(roots, suffix);
  }

  // ---------------------------------------------------------------------
  // MakeOutputPath

  /** "/job-%08d" of a job id: "/job-", then at least eight characters that
      read back as the id. */
  function JobDirName(jobId: int): (r: string)
    ensures |r| >= 13 && r[..5] == "/job-"
    ensures var f := r[5..];
            ((|f| >= 1 && f[0] == '-' && Decimal.AllDigits(f[1..])) || Decimal.AllDigits(f)) &&
            Decimal.ParseInt(f) == jobId
  {
    var f := Decimal.FormatInt(jobId, 8);
    Decimal.FormatIntRoundTrip(jobId, 8);
    var r := "/job-" + f;
    assert r[5..] == f;
    r
  }

  /** The job's private output directory: the translated first column-family
      path followed by the zero-padded job id. cf_paths[0] requires a
      non-empty cf_paths. */
  function MakeOutputPath(roots: Roots, params: CompactionParams): (r: Result<string, Fault>)
    requires |params.cfPaths| > 0
    ensures r.Success? <==> roots.hosterRoot <= params.cfPaths[0].path
    ensures r.Success? ==> r.value == GetWorkerNodeDir(roots, params.cfPaths[0].path).value + JobDirName(params.jobId)
    ensures r.Failure? ==> r.error == UnmappedFault(roots, params.cfPaths[0].path)
  {
    match GetWorkerNodeDir(roots, params.cfPaths[0].path)
    case Failure(f) => Failure(f)
    case Success(path) => Success(path + JobDirName(params.jobId))
  }

  /** MakeOutputPath over the as-written translator: it never succeeds. */
  function MakeOutputPathAsWritten(roots: Roots, params: CompactionParams): (r: Result<string, Fault>)
    requires |params.cfPaths| > 0
    ensures r == Failure(UnmappedFault(roots, params.cfPaths[0].path))
  {
    match GetWorkerNodeDirAsWritten(roots, params.cfPaths[0].path)
    case Failure(f) => Failure(f)
    case Success(path) => Success(path + JobDirName(params.jobId))
  }

  /** Two requests that differ only in their job id get distinct output
      directories. */
  lemma MakeOutputPathInjective(roots: Roots, params: CompactionParams, otherJobId: int)
    requires |params.cfPaths| > 0
    requires MakeOutputPath(roots, params).Success?
    requires otherJobId != params.jobId
    ensures MakeOutputPath(roots, params.(jobId := otherJobId)).Success?
    ensures MakeOutputPath(roots, params) != MakeOutputPath(roots, params.(jobId := otherJobId))
  {
    var base := GetWorkerNodeDir(roots, params.cfPaths[0].path).value;
    var a := JobDirName(params.jobId);
    var b := JobDirName(otherJobId);
    assert (base + a)[|base|..] == a;
    assert (base + b)[|base|..] == b;
    assert a[5..] != b[5..];
  }

  /** A non-negative id below 10^8 takes exactly the eight padded digits. */
  lemma JobDirNameShape(jobId: int)
    ensures 0 <= jobId < 100_000_000 ==> |JobDirName(jobId)| == 13
  {
    var f := Decimal.FormatInt(jobId, 8);
    assert JobDirName(jobId) == "/job-" + f;
    if 0 <= jobId < 100_000_000 {
      DigitsShort(jobId, 8);
      assert f == Decimal.PadLeft(Decimal.Digits(jobId), 8);
    }
  }

  /** The zero padding of "%08d": job 7 gets "/job-00000007". */
  lemma JobSevenDirName()
    ensures JobDirName(7) == "/job-00000007"
  {
    assert Decimal.Digits(7) == "7";
    assert Decimal.Zeros(7) == "0000000";
    assert Decimal.FormatInt(7, 8) == "00000007";
  }

  lemma {:induction false} DigitsShort(n: nat, k: nat)
    requires n < Pow10(k) && k >= 1
    ensures |Decimal.Digits(n)| <= k
    decreases k
  {
    if n >= 10 {
      DigitsShort(n / 10, k - 1);
    }
  }

  function Pow10(k: nat): (p: nat)
    ensures p >= 1
  {
    if k == 0 then 1 else 10 * Pow10(k - 1)
  }
}
