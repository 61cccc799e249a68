/*
 * The mdrun command line for one stage (gpu_command_builder.py): the base
 * command, the engine's flags and the caller's extra flags, joined by single
 * spaces and stripped.
 */
module GpuCommand {
  import opened Wrappers
  import opened Text

  /** `num_cores / num_gpus` with `num_gpus == 0` raises ZeroDivisionError. */
  datatype BuildError = DivisionByZero

  /** The stage a base command belongs to, by the first marker it contains. */
  datatype Stage = Minimization | Equilibration | Other

  const CpuEngine: string := "CPU"

  function StageOf(base: string): Stage {
    if Contains(base, "step4.0") then Minimization
    else if Contains(base, "step4.1") then Equilibration
    else Other
  }

  /** `int(a / b)`: the true quotient truncated toward zero. */
  function TruncDiv(a: int, b: int): int
    requires b != 0
  {
    if (a < 0) == (b < 0) then Abs(a) / Abs(b) else -(Abs(a) / Abs(b))
  }

  /** The truncated quotient leaves a remainder smaller than the divisor and of the dividend's sign. */
  lemma TruncDivRemainder(a: int, b: int)
    requires b != 0
    ensures -Abs(b) < a - TruncDiv(a, b) * b < Abs(b)
    ensures a >= 0 ==> a - TruncDiv(a, b) * b >= 0
    ensures a <= 0 ==> a - TruncDiv(a, b) * b <= 0
  {
    var x, y := Abs(a), Abs(b);
    var q, r := x / y, x % y;
    var t := TruncDiv(a, b);
    assert x == q * y + r && 0 <= r < y;
    if a >= 0 {
      assert a - t * b == r by {
        if b > 0 {
          assert t * b == q * y;
        } else {
          assert t * b == (-q) * (-y) == q * y;
        }
      }
    } else {
      assert a - t * b == -r by {
        if b < 0 {
          assert t * b == q * (-y) == -(q * y);
        } else {
          assert t * b == (-q) * y == -(q * y);
        }
      }
    }
  }

  function Abs(x: int): int {
    if x < 0 then -x else x
  }

  /** The f-string `f"{base_cmd} {flags} {extra_flags}".strip()`. */
  function Command(base: string, flags: seq<string>, extra: string): string {
    Strip(base + " " + JoinWith(' ', flags) + " " + extra)
  }

  /** The flags for exactly one GPU, as the three single-GPU branches write them. */
  function SingleGpuFlags(gpuIds: string, stage: Stage): seq<string> {
    match stage
    case Minimization =>
      ["-gpu_id", gpuIds, "-pin", "on", "-pinoffset", "0", "-pinstride", "1"]
    case Equilibration =>
      ["-gpu_id", gpuIds, "-nb", "gpu", "-bonded", "gpu", "-pin", "on", "-pinoffset", "0", "-pinstride", "1"]
    case Other =>
      ["-gpu_id", gpuIds, "-pme", "gpu", "-pin", "on", "-pinoffset", "0", "-pinstride", "1", "-pmefft", "gpu"]
  }

  /** The flags for any other GPU count, as the three multi-GPU branches write them. */
  function MultiGpuFlags(gpuIds: string, stage: Stage, numGpus: int, ntomp: int): seq<string> {
    var n := IntToString(numGpus);
    var t := IntToString(ntomp);
    match stage
    case Minimization =>
      ["-gpu_id", gpuIds, "-nb", "gpu", "-pin", "on", "-pinoffset", "0", "-pinstride", "1",
       "-npme", "1", "-ntmpi", n, "-ntomp", t]
    case Equilibration =>
      ["-gpu_id", gpuIds, "-nb", "gpu", "-bonded", "gpu", "-pme", "gpu", "-pin", "on", "-pinoffset", "0", "-pinstride", "1",
       "-npme", "1", "-ntmpi", n, "-ntomp", t]
    case Other =>
      ["-gpu_id", gpuIds, "-pme", "gpu", "-pin", "on", "-pinoffset", "0", "-pinstride", "1",
       "-npme", "1", "-ntmpi", n, "-ntomp", t, "-pmefft", "gpu"]
  }

  /** The engine's flags, or the division error of a GPU engine given no GPU. */
  function EngineFlags(numGpus: int, numCores: int, gpuIds: string, engine: string, stage: Stage): Result<seq<string>, BuildError> {
    if engine == CpuEngine then Ok(["-nt", IntToString(numCores)])
    else if numGpus == 1 then Ok(SingleGpuFlags(gpuIds, stage))
    else if numGpus == 0 then Err(DivisionByZero)
    else Ok(MultiGpuFlags(gpuIds, stage, numGpus, TruncDiv(numCores, numGpus)))
  }

  /** `GPUCommandBuilder.build`. */
  function Build(base: string, numGpus: int, numCores: int, gpuIds: string, engine: string, extra: string): (r: Result<string, BuildError>)
    ensures r.Err? <==> engine != CpuEngine && numGpus == 0
    ensures r.Err? ==> r.error == DivisionByZero
  {
    match EngineFlags(numGpus, numCores, gpuIds, engine, StageOf(base))
    case Ok(flags) => Ok(Command(base, flags, extra))
    case Err(e) => Err(e)
  }

  // ---------------------------------------------------------------------
  // A reference layout of the GPU flags
  // ---------------------------------------------------------------------

  /** Which interactions each stage offloads: none, bonded, or PME work, more of it with several GPUs. */
  function OffloadFlags(stage: Stage, multi: bool): seq<string> {
    match stage
    case Minimization => if multi then ["-nb", "gpu"] else []
    case Equilibration => ["-nb", "gpu", "-bonded", "gpu"] + (if multi then ["-pme", "gpu"] else [])
    case Other => ["-pme", "gpu"]
  }

  const PinFlags: seq<string> := ["-pin", "on", "-pinoffset", "0", "-pinstride", "1"]

  /** One separate PME rank and one thread-MPI rank per GPU. */
  function DecompositionFlags(numGpus: int, ntomp: int): seq<string> {
    ["-npme", "1", "-ntmpi", IntToString(numGpus), "-ntomp", IntToString(ntomp)]
  }

  function FftFlags(stage: Stage): seq<string> {
    if stage == Other then ["-pmefft", "gpu"] else []
  }

  /** Every GPU branch is the GPU ids, the offload, the pinning, the decomposition for several GPUs, and the FFT offload of the production stage, in that order. */
  function GpuFlagsLayout(gpuIds: string, stage: Stage, multi: bool, numGpus: int, ntomp: int): seq<string> {
    ["-gpu_id", gpuIds] + OffloadFlags(stage, multi) + PinFlags
    + (if multi then DecompositionFlags(numGpus, ntomp) else []) + FftFlags(stage)
  }

  lemma SingleGpuLayout(gpuIds: string, stage: Stage)
    ensures SingleGpuFlags(gpuIds, stage) == GpuFlagsLayout(gpuIds, stage, false, 1, 0)
  {
  }

  lemma MultiGpuLayout(gpuIds: string, stage: Stage, numGpus: int, ntomp: int)
    ensures MultiGpuFlags(gpuIds, stage, numGpus, ntomp) == GpuFlagsLayout(gpuIds, stage, true, numGpus, ntomp)
  {
    var n, t := IntToString(numGpus), IntToString(ntomp);
    assert DecompositionFlags(numGpus, ntomp) == ["-npme", "1", "-ntmpi", n, "-ntomp", t];
    match stage
    case Minimization => MinimizationMultiLayout(gpuIds, n, t);
    case Equilibration => EquilibrationMultiLayout(gpuIds, n, t);
    case Other => OtherMultiLayout(gpuIds, n, t);
  }

  lemma MinimizationMultiLayout(gpuIds: string, n: string, t: string)
    ensures ["-gpu_id", gpuIds, "-nb", "gpu", "-pin", "on", "-pinoffset", "0", "-pinstride", "1",
             "-npme", "1", "-ntmpi", n, "-ntomp", t]
      == ["-gpu_id", gpuIds] + OffloadFlags(Minimization, true) + PinFlags + ["-npme", "1", "-ntmpi", n, "-ntomp", t] + FftFlags(Minimization)
  {
    var pinned := ["-gpu_id", gpuIds] + OffloadFlags(Minimization, true) + PinFlags;
    assert pinned == ["-gpu_id", gpuIds, "-nb", "gpu", "-pin", "on", "-pinoffset", "0", "-pinstride", "1"];
  }

  lemma EquilibrationMultiLayout(gpuIds: string, n: string, t: string)
    ensures ["-gpu_id", gpuIds, "-nb", "gpu", "-bonded", "gpu", "-pme", "gpu", "-pin", "on", "-pinoffset", "0", "-pinstride", "1",
             "-npme", "1", "-ntmpi", n, "-ntomp", t]
      == ["-gpu_id", gpuIds] + OffloadFlags(Equilibration, true) + PinFlags + ["-npme", "1", "-ntmpi", n, "-ntomp", t] + FftFlags(Equilibration)
  {
    var head := ["-gpu_id", gpuIds] + OffloadFlags(Equilibration, true);
    assert head == ["-gpu_id", gpuIds, "-nb", "gpu", "-bonded", "gpu", "-pme", "gpu"];
    assert head + PinFlags == ["-gpu_id", gpuIds, "-nb", "gpu", "-bonded", "gpu", "-pme", "gpu", "-pin", "on", "-pinoffset", "0", "-pinstride", "1"];
  }

  lemma OtherMultiLayout(gpuIds: string, n: string, t: string)
    ensures ["-gpu_id", gpuIds, "-pme", "gpu", "-pin", "on", "-pinoffset", "0", "-pinstride", "1",
             "-npme", "1", "-ntmpi", n, "-ntomp", t, "-pmefft", "gpu"]
      == ["-gpu_id", gpuIds] + OffloadFlags(Other, true) + PinFlags + ["-npme", "1", "-ntmpi", n, "-ntomp", t] + FftFlags(Other)
  {
    var pinned := ["-gpu_id", gpuIds] + OffloadFlags(Other, true) + PinFlags;
    assert pinned == ["-gpu_id", gpuIds, "-pme", "gpu", "-pin", "on", "-pinoffset", "0", "-pinstride", "1"];
    assert pinned + ["-npme", "1", "-ntmpi", n, "-ntomp", t] == ["-gpu_id", gpuIds, "-pme", "gpu", "-pin", "on", "-pinoffset", "0", "-pinstride", "1",
      "-npme", "1", "-ntmpi", n, "-ntomp", t];
  }

  // ---------------------------------------------------------------------
  // Properties of the built command
  // ---------------------------------------------------------------------

  /** The CPU engine ignores the GPU count and ids and adds only the thread count. */
  lemma CpuCommand(base: string, numGpus: int, numCores: int, gpuIds: string, extra: string)
    ensures Build(base, numGpus, numCores, gpuIds, CpuEngine, extra)
      == Ok(Strip(base + " -nt " + IntToString(numCores) + " " + extra))
    ensures "-gpu_id" !in EngineFlags(numGpus, numCores, gpuIds, CpuEngine, StageOf(base)).value
  {
    var n := IntToString(numCores);
    assert JoinWith(' ', ["-nt", n]) == "-nt" + " " + n;
    assert base + " " + ("-nt" + " " + n) + " " + extra == base + " -nt " + n + " " + extra;
    assert "-gpu_id" != n by {
      assert "-gpu_id"[1] == 'g';
    }
  }

  /** Any GPU engine given at least one GPU adds the flags of the reference layout, multi-GPU ones exactly when the count is not one. */
  lemma GpuCommandLayout(base: string, numGpus: int, numCores: int, gpuIds: string, engine: string, extra: string)
    requires engine != CpuEngine && numGpus != 0
    ensures Build(base, numGpus, numCores, gpuIds, engine, extra)
      == Ok(Command(base, GpuFlagsLayout(gpuIds, StageOf(base), numGpus != 1, numGpus, TruncDiv(numCores, numGpus)), extra))
  {
    if numGpus == 1 {
      SingleGpuLayout(gpuIds, StageOf(base));
    } else {
      MultiGpuLayout(gpuIds, StageOf(base), numGpus, TruncDiv(numCores, numGpus));
    }
  }

  /** The GPU ids are not a flag of their own. */
  predicate IdsNotAFlag(gpuIds: string) {
    gpuIds == [] || gpuIds[0] != '-'
  }

  /** `-gpu_id` is added exactly for a GPU engine, and then first. */
  lemma GpuIdsOnlyForGpuEngine(numGpus: int, numCores: int, gpuIds: string, engine: string, stage: Stage)
    requires EngineFlags(numGpus, numCores, gpuIds, engine, stage).Ok?
    ensures var flags := EngineFlags(numGpus, numCores, gpuIds, engine, stage).value;
      ("-gpu_id" in flags <==> engine != CpuEngine) && (engine != CpuEngine ==> flags[..2] == ["-gpu_id", gpuIds])
  {
    if engine == CpuEngine {
      NotAFlag(IntToString(numCores));
      assert "-gpu_id" != "-nt";
    } else {
      var multi := numGpus != 1;
      var ntomp := if multi then TruncDiv(numCores, numGpus) else 0;
      if multi {
        MultiGpuLayout(gpuIds, stage, numGpus, ntomp);
      } else {
        SingleGpuLayout(gpuIds, stage);
      }
      LayoutStartsWithIds(gpuIds, stage, multi, if multi then numGpus else 1, ntomp);
    }
  }

  lemma LayoutStartsWithIds(gpuIds: string, stage: Stage, multi: bool, numGpus: int, ntomp: int)
    ensures var flags := GpuFlagsLayout(gpuIds, stage, multi, numGpus, ntomp);
      flags[..2] == ["-gpu_id", gpuIds] && flags[0] == "-gpu_id"
  {
  }

  /** The domain decomposition flags `-npme 1 -ntmpi n -ntomp t` are added exactly for a GPU engine with a GPU count other than one. */
  lemma DecompositionOnlyForSeveralGpus(numGpus: int, numCores: int, gpuIds: string, engine: string, stage: Stage)
    requires EngineFlags(numGpus, numCores, gpuIds, engine, stage).Ok? && IdsNotAFlag(gpuIds)
    ensures var flags := EngineFlags(numGpus, numCores, gpuIds, engine, stage).value;
      ("-npme" in flags <==> engine != CpuEngine && numGpus != 1)
      && ("-ntmpi" in flags <==> engine != CpuEngine && numGpus != 1)
      && ("-ntomp" in flags <==> engine != CpuEngine && numGpus != 1)
  {
    var flags := EngineFlags(numGpus, numCores, gpuIds, engine, stage).value;
    NotAFlag(IntToString(numCores));
    if engine != CpuEngine && numGpus != 1 {
      MultiGpuLayout(gpuIds, stage, numGpus, TruncDiv(numCores, numGpus));
      assert flags == GpuFlagsLayout(gpuIds, stage, true, numGpus, TruncDiv(numCores, numGpus));
      DecompositionIn(gpuIds, stage, numGpus, TruncDiv(numCores, numGpus));
    } else if engine != CpuEngine {
      SingleGpuLayout(gpuIds, stage);
      NoDecomposition(gpuIds, stage);
    }
  }

  /** A decimal number is never one of the flag names. */
  lemma NotAFlag(n: string)
    requires forall j :: 0 <= j < |n| ==> IsDigit(n[j]) || n[j] == '-'
    ensures n != "-npme" && n != "-ntmpi" && n != "-ntomp" && n != "-gpu_id" && n != "-bonded" && n != "-pmefft" && n != "-nb"
  {
    if |n| > 1 {
      assert !IsDigit(n[1]) ==> n[1] == '-';
    }
  }

  lemma DecompositionIn(gpuIds: string, stage: Stage, numGpus: int, ntomp: int)
    ensures var flags := GpuFlagsLayout(gpuIds, stage, true, numGpus, ntomp);
      "-npme" in flags && "-ntmpi" in flags && "-ntomp" in flags
  {
    var flags := GpuFlagsLayout(gpuIds, stage, true, numGpus, ntomp);
    var k := 2 + |OffloadFlags(stage, true)| + |PinFlags|;
    assert flags[k..k + 6] == DecompositionFlags(numGpus, ntomp);
    assert flags[k] == "-npme" && flags[k + 2] == "-ntmpi" && flags[k + 4] == "-ntomp";
  }

  lemma NoDecomposition(gpuIds: string, stage: Stage)
    requires IdsNotAFlag(gpuIds)
    ensures var flags := GpuFlagsLayout(gpuIds, stage, false, 1, 0);
      "-npme" !in flags && "-ntmpi" !in flags && "-ntomp" !in flags
  {
    assert "-npme"[0] == '-' && "-ntmpi"[0] == '-' && "-ntomp"[0] == '-';
  }

  /**
   * The offload flags follow the stage marker of the base command, the first
   * of `step4.0` and `step4.1` that occurs deciding: bonded work is offloaded
   * only in equilibration, the PME FFT only in a stage with neither marker,
   * and minimization offloads nonbonded work only with several GPUs.
   */
  lemma OffloadByStage(base: string, numGpus: int, numCores: int, gpuIds: string, engine: string)
    requires engine != CpuEngine && numGpus != 0 && IdsNotAFlag(gpuIds)
    ensures var flags := EngineFlags(numGpus, numCores, gpuIds, engine, StageOf(base)).value;
      var min := Contains(base, "step4.0");
      var eq := !min && Contains(base, "step4.1");
      ("-bonded" in flags <==> eq)
      && ("-pmefft" in flags <==> !min && !eq)
      && ("-nb" in flags <==> eq || (min && numGpus != 1))
  {
    var stage := StageOf(base);
    var multi := numGpus != 1;
    var t := if multi then TruncDiv(numCores, numGpus) else 0;
    var flags := EngineFlags(numGpus, numCores, gpuIds, engine, stage).value;
    if multi {
      MultiGpuLayout(gpuIds, stage, numGpus, t);
    } else {
      SingleGpuLayout(gpuIds, stage);
    }
    assert flags == GpuFlagsLayout(gpuIds, stage, multi, numGpus, t);
    LayoutFlags(gpuIds, stage, multi, numGpus, t);
  }

  lemma LayoutFlags(gpuIds: string, stage: Stage, multi: bool, numGpus: int, ntomp: int)
    requires IdsNotAFlag(gpuIds)
    ensures var flags := GpuFlagsLayout(gpuIds, stage, multi, numGpus, ntomp);
      ("-bonded" in flags <==> stage == Equilibration)
      && ("-pmefft" in flags <==> stage == Other)
      && ("-nb" in flags <==> stage == Equilibration || (stage == Minimization && multi))
  {
    var flags := GpuFlagsLayout(gpuIds, stage, multi, numGpus, ntomp);
    var off := OffloadFlags(stage, multi);
    var dec := if multi then DecompositionFlags(numGpus, ntomp) else [];
    var ids := ["-gpu_id", gpuIds];
    var fft := FftFlags(stage);
    assert flags == ids + off + PinFlags + dec + fft;
    assert "-bonded" !in ids && "-pmefft" !in ids && "-nb" !in ids by {
      assert "-bonded"[1] == 'b' && "-pmefft"[1] == 'p' && "-nb"[1] == 'n';
    }
    assert "-bonded" !in PinFlags && "-pmefft" !in PinFlags && "-nb" !in PinFlags;
    assert "-bonded" !in dec && "-pmefft" !in dec && "-nb" !in dec by {
      NotAFlag(IntToString(numGpus));
      NotAFlag(IntToString(ntomp));
    }
    assert "-pmefft" !in off && ("-bonded" in off <==> stage == Equilibration)
      && ("-nb" in off <==> stage == Equilibration || (stage == Minimization && multi));
    assert "-bonded" !in fft && "-nb" !in fft && ("-pmefft" in fft <==> stage == Other);
    InConcat5(ids, off, PinFlags, dec, fft, "-bonded");
    InConcat5(ids, off, PinFlags, dec, fft, "-pmefft");
    InConcat5(ids, off, PinFlags, dec, fft, "-nb");
  }

  lemma InConcat5(a: seq<string>, b: seq<string>, c: seq<string>, d: seq<string>, e: seq<string>, x: string)
    ensures x in a + b + c + d + e <==> x in a || x in b || x in c || x in d || x in e
  {
  }

  /** The built command has no whitespace at either end. */
  lemma BuildStripped(base: string, numGpus: int, numCores: int, gpuIds: string, engine: string, extra: string)
    requires Build(base, numGpus, numCores, gpuIds, engine, extra).Ok?
    ensures var cmd := Build(base, numGpus, numCores, gpuIds, engine, extra).value;
      cmd == [] || (!IsSpace(cmd[0]) && !IsSpace(cmd[|cmd| - 1]))
  {
    var flags := EngineFlags(numGpus, numCores, gpuIds, engine, StageOf(base)).value;
    StripEnds(base + " " + JoinWith(' ', flags) + " " + extra);
  }

  /** Every flag list ends in a number or `gpu`. */
  lemma FlagsEndVisible(numGpus: int, numCores: int, gpuIds: string, engine: string, stage: Stage)
    requires EngineFlags(numGpus, numCores, gpuIds, engine, stage).Ok?
    ensures var flags := EngineFlags(numGpus, numCores, gpuIds, engine, stage).value;
      |flags| >= 2 && flags[|flags| - 1] != [] && !IsSpace(flags[|flags| - 1][|flags[|flags| - 1]| - 1])
  {
  }

  /**
   * For a base command that starts with a visible character, the command is
   * the base, a space and the engine's flags, and only then the extra flags:
   * the caller's flags always come after the built-in ones.
   */
  lemma ExtraFlagsLast(base: string, numGpus: int, numCores: int, gpuIds: string, engine: string, extra: string)
    requires base != [] && !IsSpace(base[0])
    requires Build(base, numGpus, numCores, gpuIds, engine, extra).Ok?
    ensures var flags := EngineFlags(numGpus, numCores, gpuIds, engine, StageOf(base)).value;
      var head := base + " " + JoinWith(' ', flags);
      var cmd := Build(base, numGpus, numCores, gpuIds, engine, extra).value;
      |head| <= |cmd| && cmd[..|head|] == head && cmd == Strip(head + (" " + extra))
  {
    var flags := EngineFlags(numGpus, numCores, gpuIds, engine, StageOf(base)).value;
    FlagsEndVisible(numGpus, numCores, gpuIds, engine, StageOf(base));
    HeadBeforeExtra(base, flags, extra);
  }

  /** Any command whose base and flags meet visible characters at both ends keeps them as a prefix. */
  lemma HeadBeforeExtra(base: string, flags: seq<string>, extra: string)
    requires base != [] && !IsSpace(base[0])
    requires |flags| >= 1 && flags[|flags| - 1] != [] && !IsSpace(flags[|flags| - 1][|flags[|flags| - 1]| - 1])
    ensures var head := base + " " + JoinWith(' ', flags);
      var cmd := Command(base, flags, extra);
      |head| <= |cmd| && cmd[..|head|] == head && cmd == Strip(head + (" " + extra))
  {
    var j := JoinWith(' ', flags);
    var head := base + " " + j;
    JoinWithEndsWithLast(' ', flags);
    assert head[|head| - 1] == j[|j| - 1];
    assert head[0] == base[0];
    StripKeepsVisiblePrefix(head, " " + extra);
    assert head + " " + extra == head + (" " + extra);
  }

  /** With cores and GPUs counted as usual, the ranks' threads never exceed the cores, and one more thread per rank would. */
  lemma ThreadsFitCores(numCores: int, numGpus: int)
    requires numCores >= 0 && numGpus > 0
    ensures numGpus * TruncDiv(numCores, numGpus) <= numCores < numGpus * (TruncDiv(numCores, numGpus) + 1)
  {
    TruncDivRemainder(numCores, numGpus);
    var t := TruncDiv(numCores, numGpus);
    assert numGpus * (t + 1) == numGpus * t + numGpus;
  }
}
