/*
 * The process environment for the GROMACS tools (environment_manager.py):
 * the GPU id list, the CUDA tuning variables a GPU run sets and a CPU run
 * clears, and the `PATH` and `GMXDATA` entries that select the bundled
 * GROMACS installation.
 */
module Environment {
  import opened Wrappers
  import opened Text

  const CudaEngine: string := "CUDA"

  /** `str(i) for i in range(n)`: `n` runs of decimal digits, free of commas, entry `i` reading back as `i`. */
  function Decimals(n: nat): (ds: seq<string>)
    ensures |ds| == n
    ensures forall i :: 0 <= i < n ==> IsDigits(ds[i]) && ',' !in ds[i] && ParseInt(ds[i]) == Some(i)
  {
    seq(n, i => IntToString(i))
  }

  /** `",".join(str(i) for i in range(num_gpus)) if num_gpus > 0 else ""`. */
  function GpuIds(numGpus: int): string {
    if numGpus > 0 then JoinWith(',', Decimals(numGpus)) else ""
  }

  /** The nine variables a CUDA run sets and any other run removes, in the order the source lists them. */
  const GpuKeys: seq<string> := [
    "CUDA_VISIBLE_DEVICES", "GMX_ENABLE_DIRECT_GPU_COMM", "GMX_GPU_DD_COMMS",
    "GMX_GPU_PME_PP_COMMS", "GMX_FORCE_UPDATE_DEFAULT_GPU", "GMX_CUDA_STREAMS",
    "GMX_USE_GPU_BUFFER_OPS", "GMX_PIN_VERLET_BUFFER", "GMX_CUDA_GRAPH"]

  const GpuKeySet: set<string> := set k | k in GpuKeys

  /** The values a CUDA run gives them. */
  function CudaSettings(gpuIds: string): map<string, string> {
    map[
      "CUDA_VISIBLE_DEVICES" := gpuIds,
      "GMX_ENABLE_DIRECT_GPU_COMM" := "true",
      "GMX_GPU_DD_COMMS" := "true",
      "GMX_GPU_PME_PP_COMMS" := "true",
      "GMX_FORCE_UPDATE_DEFAULT_GPU" := "true",
      "GMX_CUDA_STREAMS" := "1",
      "GMX_USE_GPU_BUFFER_OPS" := "true",
      "GMX_PIN_VERLET_BUFFER" := "true",
      "GMX_CUDA_GRAPH" := "1"]
  }

  lemma GpuKeysDistinct()
    ensures forall i, j :: 0 <= i < j < |GpuKeys| ==> GpuKeys[i] != GpuKeys[j]
  {
  }

  /** The nine assignments of a CUDA run, one after the other, give each GPU variable its CUDA value. */
  lemma CudaAssignments(vars: map<string, string>, gpuIds: string)
    ensures vars["CUDA_VISIBLE_DEVICES" := gpuIds]["GMX_ENABLE_DIRECT_GPU_COMM" := "true"]["GMX_GPU_DD_COMMS" := "true"]
      ["GMX_GPU_PME_PP_COMMS" := "true"]["GMX_FORCE_UPDATE_DEFAULT_GPU" := "true"]["GMX_CUDA_STREAMS" := "1"]
      ["GMX_USE_GPU_BUFFER_OPS" := "true"]["GMX_PIN_VERLET_BUFFER" := "true"]["GMX_CUDA_GRAPH" := "1"]
      == vars + CudaSettings(gpuIds)
  {
    var m := vars["CUDA_VISIBLE_DEVICES" := gpuIds]["GMX_ENABLE_DIRECT_GPU_COMM" := "true"]["GMX_GPU_DD_COMMS" := "true"]
      ["GMX_GPU_PME_PP_COMMS" := "true"]["GMX_FORCE_UPDATE_DEFAULT_GPU" := "true"]["GMX_CUDA_STREAMS" := "1"]
      ["GMX_USE_GPU_BUFFER_OPS" := "true"]["GMX_PIN_VERLET_BUFFER" := "true"]["GMX_CUDA_GRAPH" := "1"];
    var u := vars + CudaSettings(gpuIds);
    assert m.Keys == u.Keys by {
      assert CudaSettings(gpuIds).Keys == GpuKeySet;
    }
    forall k | k in m
      ensures m[k] == u[k]
    {
      GpuKeysDistinct();
    }
  }

  /**
   * The platform's path conventions: `os.sep` and `os.pathsep`. The
   * directory of the installed program is a parameter of `Setup`.
   */
  datatype Platform = Platform(sep: char, pathsep: char)

  /** `os.path.join(a, b)` with POSIX rules: an absolute `b` replaces `a`, and a separator is added only where `a` lacks one. */
  function PathJoin(p: Platform, a: string, b: string): string {
    if b != [] && b[0] == p.sep then b
    else if a == [] || a[|a| - 1] == p.sep then a + b
    else a + [p.sep] + b
  }

  /** The bundled installation: `gmx` for CUDA, `gmx_cpu` otherwise. */
  function InstallFolder(p: Platform, scriptDir: string, engine: string): string {
    PathJoin(p, scriptDir, if engine == CudaEngine then "gmx" else "gmx_cpu")
  }

  function BinDir(p: Platform, folder: string): string {
    PathJoin(p, folder, "bin")
  }

  function DataDir(p: Platform, folder: string): string {
    PathJoin(p, PathJoin(p, folder, "share"), "gromacs")
  }

  /** `os.environ.get(key, "")`. */
  function Get(vars: map<string, string>, key: string): string {
    if key in vars then vars[key] else ""
  }

  /** The environment `setup` leaves behind, stated as a whole. */
  function AfterSetup(vars: map<string, string>, p: Platform, scriptDir: string, engine: string, gpuIds: string): map<string, string> {
    var folder := InstallFolder(p, scriptDir, engine);
    var gpu := if engine == CudaEngine then vars + CudaSettings(gpuIds) else vars - GpuKeySet;
    gpu["PATH" := BinDir(p, folder) + [p.pathsep] + Get(gpu, "PATH")]["GMXDATA" := DataDir(p, folder)]
  }

  /** `os.environ`. */
  class ProcessEnvironment {
    var vars: map<string, string>

    constructor (initial: map<string, string>)
      ensures vars == initial
    {
      vars := initial;
    }
  }

  class EnvironmentManager {
    const numGpus: int
    const engine: string
    const gpuIds: string

    constructor (numGpus: int, engine: string)
      ensures this.numGpus == numGpus && this.engine == engine && gpuIds == GpuIds(numGpus)
    {
      this.numGpus := numGpus;
      this.engine := engine;
      gpuIds := if numGpus > 0 then JoinWith(',', Decimals(numGpus)) else "";
    }

    /** `setup()`: sets or clears the GPU variables, then points `PATH` and `GMXDATA` at the installation. */
    method Setup(env: ProcessEnvironment, p: Platform, scriptDir: string)
      modifies env
      ensures env.vars == AfterSetup(old(env.vars), p, scriptDir, engine, gpuIds)
    {
      var folder: string;
      if engine == CudaEngine {
        folder := PathJoin(p, scriptDir, "gmx");
        env.vars := env.vars["CUDA_VISIBLE_DEVICES" := gpuIds];
        env.vars := env.vars["GMX_ENABLE_DIRECT_GPU_COMM" := "true"];
        env.vars := env.vars["GMX_GPU_DD_COMMS" := "true"];
        env.vars := env.vars["GMX_GPU_PME_PP_COMMS" := "true"];
        env.vars := env.vars["GMX_FORCE_UPDATE_DEFAULT_GPU" := "true"];
        env.vars := env.vars["GMX_CUDA_STREAMS" := "1"];
        env.vars := env.vars["GMX_USE_GPU_BUFFER_OPS" := "true"];
        env.vars := env.vars["GMX_PIN_VERLET_BUFFER" := "true"];
        env.vars := env.vars["GMX_CUDA_GRAPH" := "1"];
        CudaAssignments(old(env.vars), gpuIds);
      } else {
        folder := PathJoin(p, scriptDir, "gmx_cpu");
        for i := 0 to |GpuKeys|
          invariant env.vars == old(env.vars) - set k | k in GpuKeys[..i]
        {
          env.vars := env.vars - {GpuKeys[i]};
          assert GpuKeys[..i + 1] == GpuKeys[..i] + [GpuKeys[i]];
        }
        assert GpuKeys[..|GpuKeys|] == GpuKeys;
        assert (set k | k in GpuKeys) == GpuKeySet;
      }
      var path := if "PATH" in env.vars then env.vars["PATH"] else "";
      env.vars := env.vars["PATH" := PathJoin(p, folder, "bin") + [p.pathsep] + path];
      env.vars := env.vars["GMXDATA" := PathJoin(p, PathJoin(p, folder, "share"), "gromacs")];
    }
  }

  // ---------------------------------------------------------------------
  // Properties of the GPU id list and of the environment after `setup`
  // ---------------------------------------------------------------------

  /** No GPUs give an empty list; `n` GPUs give the ids `0 .. n-1`, separated by exactly `n - 1` commas. */
  lemma GpuIdsShape(numGpus: int)
    ensures numGpus <= 0 ==> GpuIds(numGpus) == []
    ensures numGpus > 0 ==> Count(GpuIds(numGpus), ',') == numGpus - 1
    ensures numGpus > 0 ==> SplitOn(GpuIds(numGpus), ',') == Decimals(numGpus)
    ensures numGpus > 0 ==> forall i :: 0 <= i < numGpus ==> ParseInt(SplitOn(GpuIds(numGpus), ',')[i]) == Some(i)
  {
    if numGpus > 0 {
      var ds := Decimals(numGpus);
      JoinWithCount(',', ds);
      SplitJoin(',', ds);
    }
  }

  lemma PathKeysNotGpuKeys()
    ensures "PATH" !in GpuKeys && "GMXDATA" !in GpuKeys
  {
  }

  /** A CUDA run leaves every GPU variable with its CUDA value, `CUDA_VISIBLE_DEVICES` being the GPU id list. */
  lemma CudaSetupSetsGpuKeys(vars: map<string, string>, p: Platform, scriptDir: string, gpuIds: string)
    ensures var after := AfterSetup(vars, p, scriptDir, CudaEngine, gpuIds);
      (forall k :: k in CudaSettings(gpuIds) ==> k in after && after[k] == CudaSettings(gpuIds)[k])
      && after["CUDA_VISIBLE_DEVICES"] == gpuIds
  {
    PathKeysNotGpuKeys();
    assert CudaSettings(gpuIds).Keys == GpuKeySet;
  }

  /** Any other engine leaves none of the nine GPU variables, whether or not they were set before. */
  lemma OtherSetupClearsGpuKeys(vars: map<string, string>, p: Platform, scriptDir: string, engine: string, gpuIds: string)
    requires engine != CudaEngine
    ensures forall k :: k in GpuKeys ==> k !in AfterSetup(vars, p, scriptDir, engine, gpuIds)
    ensures AfterSetup(vars - GpuKeySet, p, scriptDir, engine, gpuIds) == AfterSetup(vars, p, scriptDir, engine, gpuIds)
  {
    PathKeysNotGpuKeys();
    assert (vars - GpuKeySet) - GpuKeySet == vars - GpuKeySet;
  }

  /**
   * `setup` prepends the installation's `bin` directory to the old `PATH`
   * (empty when unset), points `GMXDATA` at its `share/gromacs`, and changes
   * no variable other than those two and the nine GPU ones.
   */
  lemma SetupChangesOnlyListedKeys(vars: map<string, string>, p: Platform, scriptDir: string, engine: string, gpuIds: string)
    ensures var after := AfterSetup(vars, p, scriptDir, engine, gpuIds);
      var folder := InstallFolder(p, scriptDir, engine);
      after["PATH"] == BinDir(p, folder) + [p.pathsep] + Get(vars, "PATH")
      && after["GMXDATA"] == DataDir(p, folder)
      && forall k :: k !in GpuKeys && k != "PATH" && k != "GMXDATA" ==>
           (k in after <==> k in vars) && (k in vars ==> after[k] == vars[k])
  {
    PathKeysNotGpuKeys();
    assert CudaSettings(gpuIds).Keys == GpuKeySet;
  }

  /** The old `PATH` survives as a suffix of the new one, after one more separator. */
  lemma OldPathIsSuffix(vars: map<string, string>, p: Platform, scriptDir: string, engine: string, gpuIds: string)
    ensures var path := AfterSetup(vars, p, scriptDir, engine, gpuIds)["PATH"];
      |path| > |Get(vars, "PATH")|
      && path[|path| - |Get(vars, "PATH")|..] == Get(vars, "PATH")
      && path[|path| - |Get(vars, "PATH")| - 1] == p.pathsep
  {
    SetupChangesOnlyListedKeys(vars, p, scriptDir, engine, gpuIds);
  }

  /** `setup` is not idempotent: every call prepends the `bin` directory once more. */
  lemma SetupTwiceGrowsPath(vars: map<string, string>, p: Platform, scriptDir: string, engine: string, gpuIds: string)
    ensures var once := AfterSetup(vars, p, scriptDir, engine, gpuIds);
      var twice := AfterSetup(once, p, scriptDir, engine, gpuIds);
      twice["PATH"] == BinDir(p, InstallFolder(p, scriptDir, engine)) + [p.pathsep] + once["PATH"]
      && twice != once
  {
    var once := AfterSetup(vars, p, scriptDir, engine, gpuIds);
    SetupChangesOnlyListedKeys(vars, p, scriptDir, engine, gpuIds);
    SetupChangesOnlyListedKeys(once, p, scriptDir, engine, gpuIds);
    assert |AfterSetup(once, p, scriptDir, engine, gpuIds)["PATH"]| > |once["PATH"]|;
  }
}
