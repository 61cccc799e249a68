/**
 * The worker that runs the whole pipeline in the working directory:
 * preprocessing, minimization, equilibration and production, or production
 * alone when a checkpoint is there to resume from. What it tells the
 * interface goes out as signals, modelled as an appended list of events; the
 * external tools are replaced by their outcomes, given as inputs.
 */
module Simulation {
  import opened Wrappers
  import opened Text
  import opened Files
  import MdpFile
  import MdpFileProperties
  import GpuCommand
  import Environment
  import CommandRunner

  // ---------------------------------------------------------------------
  // Signals, launches and failures
  // ---------------------------------------------------------------------

  /** The level strings of the `log` signal. */
  datatype Level = Info | Success | Warning | Error | Command

  /** One emission of `progress(int, str)`, `log(str, str)` or `finished()`. */
  datatype Event = Progress(percent: int, step: string) | Log(level: Level, message: string) | Finished

  /**
   * A command the worker started, directly or through the mdrun supervisor,
   * with the step it belongs to; the supervisor's `-g` log flag is not part
   * of it.
   */
  datatype Launch = Launch(step: string, command: string)

  /** The exceptions that end a run. */
  datatype Failure =
    | Runtime(message: string)
    | MissingFile(message: string)
    | CommandFailed(command: string, code: int, stderr: string)
    | InvalidUnit
    | BadConfig(error: MdpFile.MdpError)
    | ZeroDivision
    | BadFloat(text: string)
    | BadStepCount(reason: StepCountError)

  /**
   * Why `int(total_ps / timestep_ps)` raises: a zero time step, an infinite
   * quotient, or a quotient that is not a number.
   */
  datatype StepCountError = ZeroTimeStep | InfiniteCount | UndefinedCount

  /** `str(e)`; a failed command shows the exit-status form of `CalledProcessError`. */
  function Describe(f: Failure): string {
    match f
    case Runtime(m) => m
    case MissingFile(m) => m
    case CommandFailed(c, code, _) => "Command '" + c + "' returned non-zero exit status " + IntToString(code) + "."
    case InvalidUnit => "Invalid time unit"
    case BadConfig(e) =>
      if e.NoEquals? then "not enough values to unpack (expected 2, got 1)"
      else "invalid literal for int() with base 10: '" + e.text + "'"
    case ZeroDivision => "division by zero"
    case BadFloat(t) => "could not convert string to float: '" + t + "'"
    case BadStepCount(e) =>
      match e
      case ZeroTimeStep => "float division by zero"
      case InfiniteCount => "cannot convert float infinity to integer"
      case UndefinedCount => "cannot convert float NaN to integer"
  }

  /** `e.stderr if e.stderr else str(e)`, the detail of a failed step's error log. */
  function Detail(f: Failure): string {
    if f.CommandFailed? && f.stderr != "" then f.stderr else Describe(f)
  }

  const WarningSign: string := "\U{26A0}\U{FE0F} "
  const CheckMark: string := "\U{2705} "
  const CrossMark: string := "\U{274C} "

  function CommandLog(command: string): Event {
    Log(Command, "$ " + command)
  }

  function SuccessLog(step: string): Event {
    Log(Success, CheckMark + "Success: " + step)
  }

  function FailedLog(step: string, f: Failure): Event {
    Log(Error, CrossMark + "Failed " + step + ": " + Detail(f))
  }

  /** The error log of `run`'s `except` clause. */
  function ErrorLog(f: Failure): Event {
    Log(Error, CrossMark + "Error: " + Describe(f))
  }

  /** The closing log of a run whose production step succeeded. */
  const CompletedLog: Event := Log(Info, "\U{1F389} Simulation completed. All steps succeeded!")

  const UserCancelled: string := "Simulation cancelled by user."

  // ---------------------------------------------------------------------
  // The pipeline's steps, files and commands
  // ---------------------------------------------------------------------

  const Step1: string := "Step 1: Preprocessing Minimization"
  const Step2: string := "Step 2: Minimization"
  const Step3: string := "Step 3: Preprocessing Equilibration"
  const Step4: string := "Step 4: Equilibration"
  const Step5: string := "Step 5: Preprocessing Production"
  const Step6: string := "Step 6: Production"

  const CheckpointFile: string := "step5_1.cpt"
  const ProductionMdp: string := "step5_production.mdp"

  const Grompp1: string :=
    "gmx grompp -f step4.0_minimization.mdp -o step4.0_minimization.tpr "
    + "-c step3_input.gro -r step3_input.gro -p topol.top -n index.ndx -maxwarn 1"
  const Grompp3: string :=
    "gmx grompp -f step4.1_equilibration.mdp -o step4.1_equilibration.tpr "
    + "-c step4.0_minimization.gro -r step3_input.gro -p topol.top -n index.ndx -maxwarn 1"
  const Grompp5: string :=
    "gmx grompp -f step5_production.mdp -o step5_1.tpr -c step4.1_equilibration.gro "
    + "-p topol.top -n index.ndx"

  const MinimizationBase: string := "gmx mdrun -v -deffnm step4.0_minimization"
  const EquilibrationBase: string := "gmx mdrun -v -deffnm step4.1_equilibration"

  /** The production command before the engine's flags: the four literal branches on the checkpoint and the engine. */
  function ProductionBase(checkpoint: bool, engine: string): string {
    if checkpoint then
      if engine == GpuCommand.CpuEngine then "gmx mdrun -v -deffnm step5_1 -cpi step5_1.cpt -append"
      else "gmx mdrun -v -deffnm step5_1 -cpi step5_1.cpt -append -nb gpu -bonded gpu"
    else
      if engine == GpuCommand.CpuEngine then "gmx mdrun -v -deffnm step5_1"
      else "gmx mdrun -v -deffnm step5_1 -nb gpu -bonded gpu"
  }

  /** The production run's `extra_flags`. */
  function ProductionExtra(nstlist: int, nsteps: int): string {
    "-resetstep 90000 -nstlist " + IntToString(nstlist) + " -nsteps " + IntToString(nsteps)
  }

  /** A step the checkpoint lets the run skip, and the file it would have produced. */
  datatype SkippedStep = SkippedStep(name: string, artifact: string)

  const PreparationSteps: set<string> := {Step1, Step2, Step3, Step4, Step5}

  const Skipped: seq<SkippedStep> := [
    SkippedStep(Step1, "step4.0_minimization.tpr"),
    SkippedStep(Step2, "step4.0_minimization.gro"),
    SkippedStep(Step3, "step4.1_equilibration.tpr"),
    SkippedStep(Step4, "step4.1_equilibration.gro"),
    SkippedStep(Step5, "step5_1.tpr")
  ]

  /** The warning a skipped step gets when its file is missing. */
  function SkipWarning(s: SkippedStep): Event {
    Log(Warning, WarningSign + "File " + s.artifact + " not found after " + s.name + " (skipped)")
  }

  /** What one skipped step emits: progress 100, a success log, and a warning when its file is missing. */
  function SkipEvents(s: SkippedStep, files: map<string, string>): seq<Event> {
    [Progress(100, s.name), Log(Success, CheckMark + "Success: " + s.name + " (skipped due to checkpoint)")]
    + if s.artifact in files then [] else [SkipWarning(s)]
  }

  function SkipAll(steps: seq<SkippedStep>, files: map<string, string>): (r: seq<Event>)
    ensures Finished !in r
  {
    if steps == [] then []
    else SkipAll(steps[..|steps| - 1], files) + SkipEvents(steps[|steps| - 1], files)
  }

  lemma CancelPointStep(flag: bool, pauses: seq<bool>, k: nat)
    requires k < 5 && !SeenAt(flag, pauses, k)
    ensures CancelPoint(flag, pauses, k) == CancelPoint(flag, pauses, k + 1)
  {
  }

  /** Reporting skipped step `k` after the steps before it reports the steps up to and including it. */
  lemma SkipAllStep(before: seq<Event>, steps: seq<SkippedStep>, k: nat, files: map<string, string>)
    requires k < |steps|
    ensures before + SkipAll(steps[..k], files) + SkipEvents(steps[k], files) == before + SkipAll(steps[..k + 1], files)
  {
    assert steps[..k + 1][..k] == steps[..k];
  }

  // ---------------------------------------------------------------------
  // The outside world, as inputs
  // ---------------------------------------------------------------------

  /**
   * A `grompp` run: the files it leaves, its exit code and standard error,
   * and whether `interrupt()` is called while it runs.
   */
  datatype ToolRun = ToolRun(created: map<string, string>, exitCode: int, stderr: string, interruptAfter: bool)

  /**
   * An `mdrun` run: its polls and exit code as the supervisor sees them, the
   * files it leaves, and whether `interrupt()` is called after its last poll.
   */
  datatype MdrunRun = MdrunRun(ticks: seq<CommandRunner.Tick>, exitCode: int, created: map<string, string>, interruptAfter: bool)

  /** Whether `interrupt()` is called while the run goes on. */
  predicate ArrivesDuring(run: MdrunRun) {
    run.interruptAfter || exists i :: 0 <= i < |run.ticks| && run.ticks[i].interrupted
  }

  /**
   * Everything a run meets: the six tools' runs, whether `interrupt()` is
   * called during each pause of the checkpoint loop, what `extract_dt`
   * gives (the time step as the log prints it, or the matched text
   * `float()` rejects), and what `int(total_ps / timestep_ps)` gives (the
   * step count, or why it raises).
   */
  datatype World = World(
    prepMin: ToolRun, min: MdrunRun, prepEq: ToolRun, eq: MdrunRun, prepProd: ToolRun, prod: MdrunRun,
    pauses: seq<bool>, dt: Result<string, string>, nsteps: Result<int, StepCountError>)

  /** The files the runs before production leave behind. */
  function PreparationFiles(w: World): set<string> {
    w.prepMin.created.Keys + w.min.created.Keys + w.prepEq.created.Keys + w.eq.created.Keys + w.prepProd.created.Keys
  }

  /** `check_interrupted()` at each poll: a flag already set answers at every poll. */
  function Polled(ticks: seq<CommandRunner.Tick>, flag: bool): (r: seq<CommandRunner.Tick>)
    ensures |r| == |ticks|
    ensures forall i :: 0 <= i < |r| ==> r[i].output == ticks[i].output && r[i].interrupted == (flag || ticks[i].interrupted)
  {
    if flag then seq(|ticks|, i requires 0 <= i < |ticks| => CommandRunner.Tick(true, ticks[i].output)) else ticks
  }

  /** An interrupt arriving during pause `k` of the checkpoint loop. */
  predicate Arrives(pauses: seq<bool>, k: nat) {
    k < |pauses| && pauses[k]
  }

  /** The flag as the checkpoint loop's check before skipped step `k` reads it. */
  predicate SeenAt(flag: bool, pauses: seq<bool>, k: nat) {
    if k == 0 then flag else SeenAt(flag, pauses, k - 1) || Arrives(pauses, k - 1)
  }

  /** How many steps the checkpoint loop skips before it sees the flag; 5 when it never does. */
  function CancelPoint(flag: bool, pauses: seq<bool>, k: nat): (n: nat)
    requires k <= 5
    ensures k <= n <= 5
    decreases 5 - k
  {
    if k == 5 then 5 else if SeenAt(flag, pauses, k) then k else CancelPoint(flag, pauses, k + 1)
  }

  // ---------------------------------------------------------------------
  // Progress forwarded to the interface
  // ---------------------------------------------------------------------

  /** `int(val)`: truncation toward zero. */
  function Truncate(x: real): (n: int)
    ensures 0.0 <= x ==> 0 <= n && n as real <= x < n as real + 1.0
    ensures x < 0.0 ==> n <= 0 && n as real - 1.0 < x <= n as real
  {
    if x >= 0.0 then x.Floor else -((-x).Floor)
  }

  /** The callback's emissions for the values the supervisor reported. */
  function Forwarded(values: seq<real>, step: string): (r: seq<Event>)
    ensures |r| == |values|
    ensures forall i :: 0 <= i < |r| ==> r[i] == Progress(Truncate(values[i]), step)
  {
    if values == [] then []
    else Forwarded(values[..|values| - 1], step) + [Progress(Truncate(values[|values| - 1]), step)]
  }

  /** What the wrapper logs once the supervisor is done. */
  function Settled(o: CommandRunner.Outcome, step: string, command: string): seq<Event> {
    match o
    case Completed => [Progress(100, step), SuccessLog(step)]
    case ProcessFailed(code) => [FailedLog(step, CommandFailed(command, code, ""))]
    case TerminatedByUser => [Log(Warning, WarningSign + "Simulation " + step + " terminated by user.")]
    case NstepsNotFound => [Log(Warning, WarningSign + CrossMark + "nsteps not found for " + step)]
    case NstepsUnreadable(_) => []
  }

  /** The wrapper's result: success, or the exception it re-raises. */
  function Raised(o: CommandRunner.Outcome, step: string, command: string): Outcome<Failure> {
    match o
    case Completed => Pass
    case ProcessFailed(code) => Fail(CommandFailed(command, code, ""))
    case TerminatedByUser => Fail(Runtime("Simulation " + step + " terminated by user."))
    case NstepsNotFound => Fail(Runtime(CrossMark + "nsteps not found for " + step))
    case NstepsUnreadable(e) => Fail(BadConfig(e))
  }

  // ---------------------------------------------------------------------
  // How the event and launch lists may grow
  // ---------------------------------------------------------------------

  /** `after` extends `before` without a `finished` emission. */
  predicate Grows(before: seq<Event>, after: seq<Event>) {
    before <= after && Finished !in after[|before|..]
  }

  /** `after` extends `before` without a `finished` emission and then ends with its one `finished`. */
  predicate Closed(before: seq<Event>, after: seq<Event>) {
    |after| > |before| && after[|after| - 1] == Finished && Grows(before, after[..|after| - 1])
  }

  lemma GrowsTransitive(a: seq<Event>, b: seq<Event>, c: seq<Event>)
    requires Grows(a, b) && Grows(b, c)
    ensures Grows(a, c)
  {
    assert c[|a|..] == b[|a|..] + c[|b|..];
  }

  lemma GrowsThenClosed(a: seq<Event>, b: seq<Event>, c: seq<Event>)
    requires Grows(a, b) && Closed(b, c)
    ensures Closed(a, c)
  {
    GrowsTransitive(a, b, c[..|c| - 1]);
  }

  lemma GrowsByOne(a: seq<Event>, b: seq<Event>, e: Event)
    requires Grows(a, b) && e != Finished
    ensures Grows(a, b + [e])
  {
    assert (b + [e])[|a|..] == b[|a|..] + [e];
  }

  lemma GrowsBy(a: seq<Event>, tail: seq<Event>)
    requires Finished !in tail
    ensures Grows(a, a + tail)
  {
    assert (a + tail)[|a|..] == tail;
  }

  /** A run that appends `tail` and then `finished` has grown by `tail` before its last event. */
  lemma EndsFinished(a: seq<Event>, tail: seq<Event>)
    requires Finished !in tail
    ensures Closed(a, a + tail + [Finished])
  {
    var all := a + tail + [Finished];
    assert all[..|all| - 1] == a + tail;
    GrowsBy(a, tail);
  }

  /** A run that has grown from `a` to `b` and then logs `last` and emits `finished` ends with its one `finished`. */
  lemma ClosesWith(a: seq<Event>, b: seq<Event>, last: Event)
    requires Grows(a, b) && last != Finished
    ensures Closed(a, b + [last, Finished])
    ensures (b + [last, Finished])[|b + [last, Finished]| - 2] == last
  {
    var all := b + [last, Finished];
    assert all[..|all| - 1] == b + [last];
    GrowsByOne(a, b, last);
  }

  lemma CheckpointSkipped(a: seq<Event>, notice: Event, skipped: seq<Event>)
    requires notice != Finished && Finished !in skipped
    ensures Grows(a, a + [notice] + skipped + [])
  {
    GrowsBy(a, [notice] + skipped);
    assert a + [notice] + skipped + [] == a + ([notice] + skipped);
  }

  lemma CheckpointCancelled(a: seq<Event>, notice: Event, skipped: seq<Event>, warning: Event)
    requires notice != Finished && warning != Finished && Finished !in skipped
    ensures Closed(a, a + [notice] + skipped + [warning, Finished])
  {
    EndsFinished(a, [notice] + skipped + [warning]);
    assert a + [notice] + skipped + [warning, Finished] == a + ([notice] + skipped + [warning]) + [Finished];
  }

  /** `after` extends `before` by launches of the steps in `steps` only. */
  predicate LaunchesWithin(before: seq<Launch>, after: seq<Launch>, steps: set<string>) {
    before <= after && forall l :: l in after[|before|..] ==> l.step in steps
  }

  lemma LaunchesTransitive(a: seq<Launch>, b: seq<Launch>, c: seq<Launch>, steps: set<string>)
    requires LaunchesWithin(a, b, steps) && LaunchesWithin(b, c, steps)
    ensures LaunchesWithin(a, c, steps)
  {
    assert c[|a|..] == b[|a|..] + c[|b|..];
  }

  lemma ThreeLaunches(l: seq<Launch>, a: Launch, b: Launch, c: Launch)
    ensures l + [a, b] + [c] == l + [a, b, c]
  {
  }

  lemma FiveLaunches(l: seq<Launch>, a: Launch, b: Launch, c: Launch, d: Launch, e: Launch)
    ensures l + [a, b] + [c, d, e] == l + [a, b, c, d, e]
  {
  }

  /** The wrapper's emissions hold no `finished`. */
  lemma WrapperGrows(before: seq<Event>, command: string, values: seq<real>, o: CommandRunner.Outcome, step: string, cmd: string)
    ensures Grows(before, before + [CommandLog(command)] + Forwarded(values, step) + Settled(o, step, cmd))
  {
    var tail := [CommandLog(command)] + Forwarded(values, step) + Settled(o, step, cmd);
    assert Finished !in Settled(o, step, cmd) by {
      match o
      case Completed =>
      case ProcessFailed(_) =>
      case TerminatedByUser =>
      case NstepsNotFound =>
      case NstepsUnreadable(_) =>
    }
    assert Finished !in Forwarded(values, step);
    GrowsBy(before, tail);
    assert before + [CommandLog(command)] + Forwarded(values, step) + Settled(o, step, cmd) == before + tail;
  }

  lemma LaunchesWiden(a: seq<Launch>, b: seq<Launch>, small: set<string>, large: set<string>)
    requires LaunchesWithin(a, b, small) && small <= large
    ensures LaunchesWithin(a, b, large)
  {
  }

  /** Step 6 is none of steps 1 to 5: the digit after "Step " tells them apart. */
  lemma StepSixIsProduction()
    ensures Step6 !in PreparationSteps
  {
    assert Step6[5] == '6';
    assert Step1[5] == '1' && Step2[5] == '2' && Step3[5] == '3' && Step4[5] == '4' && Step5[5] == '5';
  }

  /**
   * Launches before production are of steps 1 to 5 only, so the step 6
   * launches of a run are those of its production.
   */
  lemma ProductionLaunches(l0: seq<Launch>, l2: seq<Launch>, l3: seq<Launch>, checkpoint: bool, c: Option<string>)
    requires LaunchesWithin(l0, l2, PreparationSteps)
    requires l3 == l2 || (c.Some? && l3 == l2 + [Launch(Step6, c.value)])
    ensures LaunchesWithin(l0, l3, PreparationSteps + {Step6})
    ensures forall l :: l in l3[|l0|..] && l.step == Step6 ==> Some(l.command) == c
    ensures l2 == l0 ==> LaunchesWithin(l0, l3, {Step6})
  {
    StepSixIsProduction();
    assert l3[|l0|..] == l2[|l0|..] + l3[|l2|..];
  }

  // ---------------------------------------------------------------------
  // The worker
  // ---------------------------------------------------------------------

  class SimulationWorker {
    const workdir: string
    const numGpus: int
    const numCores: int
    /** The duration as the log prints it; the arithmetic on it is not modelled. */
    const duration: string
    const unit: string
    const engine: string
    var interrupted: bool
    var events: seq<Event>
    var launched: seq<Launch>

    constructor (workdir: string, numGpus: int, numCores: int, duration: string, unit: string, engine: string)
      ensures this.workdir == workdir && this.numGpus == numGpus && this.numCores == numCores
      ensures this.duration == duration && this.unit == unit && this.engine == engine
      ensures !interrupted && events == [] && launched == []
    {
      this.workdir := workdir;
      this.numGpus := numGpus;
      this.numCores := numCores;
      this.duration := duration;
      this.unit := unit;
      this.engine := engine;
      interrupted := false;
      events := [];
      launched := [];
    }

    /** The command the engine's flags make of `base`, or the division error. */
    function Built(base: string, gpuIds: string, extra: string): Result<string, GpuCommand.BuildError> {
      GpuCommand.Build(base, numGpus, numCores, gpuIds, engine, extra)
    }

    /** The production command the worker hands to the supervisor, for `nstlist` 300; none when the step count or the build raises. */
    function ProductionLaunch(checkpoint: bool, gpuIds: string, nsteps: Result<int, StepCountError>): Option<string> {
      if nsteps.Err? then None
      else
        match Built(ProductionBase(checkpoint, engine), gpuIds, ProductionExtra(MdpFile.DefaultNstlist, nsteps.value))
        case Ok(c) => Some(c)
        case Err(_) => None
    }

    /** `interrupt()`: sets the flag and nothing else. */
    method Interrupt()
      modifies this
      ensures interrupted
      ensures events == old(events) && launched == old(launched)
    {
      interrupted := true;
    }

    /** `check_file_exists(path, step)`: logs success, or logs an error and raises `FileNotFoundError`. */
    method CheckFileExists(dir: WorkDir, path: string, step: string) returns (r: Outcome<Failure>)
      modifies this
      ensures r.Pass? <==> path in dir.files
      ensures r.Pass? ==> events == old(events) + [Log(Success, CheckMark + path + " successfully created at " + step)]
      ensures r.Fail? ==>
        r.error == MissingFile(path + " not found after " + step)
        && events == old(events) + [Log(Error, CrossMark + path + " not found after " + step)]
      ensures interrupted == old(interrupted) && launched == old(launched)
    {
      if path in dir.files {
        events := events + [Log(Success, CheckMark + path + " successfully created at " + step)];
        r := Pass;
      } else {
        events := events + [Log(Error, CrossMark + path + " not found after " + step)];
        r := Fail(MissingFile(path + " not found after " + step));
      }
    }

    /**
     * `run_command(command, step)`: logs the command, refuses to start it
     * once the flag is set, and otherwise runs it and raises
     * `CalledProcessError` on a non-zero exit code.
     */
    method RunCommand(dir: WorkDir, command: string, step: string, run: ToolRun) returns (r: Outcome<Failure>)
      modifies this, dir
      ensures old(interrupted) ==>
        r == Fail(Runtime("Step " + step + " cancelled.")) && interrupted
        && launched == old(launched) && dir.files == old(dir.files)
        && events == old(events) + [CommandLog(command), Log(Warning, WarningSign + "Step " + step + " cancelled before start.")]
      ensures !old(interrupted) ==>
        launched == old(launched) + [Launch(step, command)] && dir.files == old(dir.files) + run.created
        && interrupted == run.interruptAfter
        && (r.Pass? <==> run.exitCode == 0)
        && (r.Pass? ==> events == old(events) + [CommandLog(command), SuccessLog(step)])
        && (r.Fail? ==>
              r.error == CommandFailed(command, run.exitCode, run.stderr)
              && events == old(events) + [CommandLog(command), FailedLog(step, r.error)])
    {
      events := events + [CommandLog(command)];
      if interrupted {
        events := events + [Log(Warning, WarningSign + "Step " + step + " cancelled before start.")];
        return Fail(Runtime("Step " + step + " cancelled."));
      }
      launched := launched + [Launch(step, command)];
      dir.files := dir.files + run.created;
      if run.exitCode == 0 {
        events := events + [SuccessLog(step)];
        r := Pass;
      } else {
        r := Fail(CommandFailed(command, run.exitCode, run.stderr));
        events := events + [FailedLog(step, r.error)];
      }
      if run.interruptAfter {
        interrupted := true;
      }
    }

    /** The `update_progress` callback, once per value the supervisor reports: `progress(int(val), step)`. */
    method ForwardProgress(values: seq<real>, step: string) returns (forwarded: seq<Event>)
      ensures forwarded == Forwarded(values, step)
    {
      forwarded := [];
      var i := 0;
      while i < |values|
        invariant 0 <= i <= |values|
        invariant forwarded == Forwarded(values[..i], step)
      {
        assert values[..i + 1][..i] == values[..i];
        forwarded := forwarded + [Progress(Truncate(values[i]), step)];
        i := i + 1;
      }
      assert values[..i] == values;
    }

    /**
     * The worker's `run_mdrun_with_progress(command, step)`: logs the
     * command, forwards each reported value truncated to an integer, and
     * after success emits 100 and a success log; a failure is logged and
     * raised again.
     */
    method MdrunWithProgress(dir: WorkDir, command: string, step: string, run: MdrunRun) returns (r: Outcome<Failure>)
      modifies this, dir
      ensures var rep := CommandRunner.Supervisor(old(dir.files), command, step, Polled(run.ticks, old(interrupted)), run.exitCode);
        var cmd := CommandRunner.LaunchedCommand(command, step);
        events == old(events) + [CommandLog(command)] + Forwarded(rep.progress, step) + Settled(rep.outcome, step, cmd)
        && r == Raised(rep.outcome, step, cmd)
      ensures var rep := CommandRunner.Supervisor(old(dir.files), command, step, Polled(run.ticks, old(interrupted)), run.exitCode);
        if rep.launched.Some? then launched == old(launched) + [Launch(step, command)] && dir.files == old(dir.files) + run.created
        else launched == old(launched) && dir.files == old(dir.files) && r.Fail?
      ensures interrupted == (old(interrupted) || ArrivesDuring(run))
      ensures launched == old(launched) || launched == old(launched) + [Launch(step, command)]
      ensures dir.files == old(dir.files) || dir.files == old(dir.files) + run.created
      ensures r.Pass? ==> launched == old(launched) + [Launch(step, command)] && dir.files == old(dir.files) + run.created
      ensures Grows(old(events), events)
    {
      var rep := CommandRunner.RunMdrunWithProgress(dir, command, step, Polled(run.ticks, interrupted), run.exitCode);
      CommandRunner.NoLaunchWithoutNsteps(dir.files, command, step, Polled(run.ticks, interrupted), run.exitCode);
      r := Relay(dir, command, step, rep, run);
    }

    /**
     * What the wrapper does with the supervisor's report: the command log,
     * the forwarded progress, then success, or the failure logged and raised
     * again. A launched process leaves its files behind.
     */
    method Relay(dir: WorkDir, command: string, step: string, rep: CommandRunner.Report, run: MdrunRun) returns (r: Outcome<Failure>)
      requires rep.launched.None? ==> rep.outcome.NstepsNotFound? || rep.outcome.NstepsUnreadable?
      modifies this, dir
      ensures var cmd := CommandRunner.LaunchedCommand(command, step);
        events == old(events) + [CommandLog(command)] + Forwarded(rep.progress, step) + Settled(rep.outcome, step, cmd)
        && r == Raised(rep.outcome, step, cmd)
      ensures if rep.launched.Some? then launched == old(launched) + [Launch(step, command)] && dir.files == old(dir.files) + run.created
        else launched == old(launched) && dir.files == old(dir.files) && r.Fail?
      ensures interrupted == (old(interrupted) || ArrivesDuring(run))
      ensures launched == old(launched) || launched == old(launched) + [Launch(step, command)]
      ensures dir.files == old(dir.files) || dir.files == old(dir.files) + run.created
      ensures r.Pass? ==> launched == old(launched) + [Launch(step, command)] && dir.files == old(dir.files) + run.created
      ensures Grows(old(events), events)
    {
      var forwarded := ForwardProgress(rep.progress, step);
      var cmd := CommandRunner.LaunchedCommand(command, step);
      WrapperGrows(events, command, rep.progress, rep.outcome, step, cmd);
      events := events + [CommandLog(command)] + forwarded + Settled(rep.outcome, step, cmd);
      r := Raised(rep.outcome, step, cmd);
      if rep.launched.Some? {
        launched := launched + [Launch(step, command)];
        dir.files := dir.files + run.created;
      }
      if ArrivesDuring(run) {
        interrupted := true;
      }
    }

    /**
     * The nsteps rule of `calculate_nsteps`: an unknown unit is an error;
     * otherwise the production file's `nsteps` is rewritten only when it is
     * absent or differs from the computed count.
     */
    method CalculateNsteps(dir: WorkDir, dt: string, count: Result<int, StepCountError>) returns (r: Result<int, Failure>)
      modifies this, dir
      ensures unit != "ns" && unit != "ps" ==>
        r == Err(InvalidUnit) && dir.files == old(dir.files)
        && events == old(events) + [Log(Error, CrossMark + "Invalid time unit. Use 'ns' or 'ps'")]
      ensures (unit == "ns" || unit == "ps") && count.Err? ==>
        r == Err(BadStepCount(count.error)) && dir.files == old(dir.files) && events == old(events)
      ensures (unit == "ns" || unit == "ps") && count.Ok? ==>
        var nsteps := count.value;
        match MdpFile.ReadNsteps(old(dir.files), ProductionMdp)
        case Err(e) => r == Err(BadConfig(e)) && dir.files == old(dir.files) && events == old(events)
        case Ok(stored) =>
          r == Ok(nsteps)
          && |events| == |old(events)| + 1 && events[..|old(events)|] == old(events)
          && events[|old(events)|].Log? && events[|old(events)|].level == Info
          && (stored == Some(nsteps) || ProductionMdp !in old(dir.files) ==> dir.files == old(dir.files))
          && (stored != Some(nsteps) && ProductionMdp in old(dir.files) ==>
                dir.files == old(dir.files)[ProductionMdp := MdpFile.WriteKey(old(dir.files)[ProductionMdp], MdpFile.NstepsKey, MdpFile.NstepsPadding, nsteps).value])
      ensures interrupted == old(interrupted) && launched == old(launched)
    {
      if unit != "ns" && unit != "ps" {
        events := events + [Log(Error, CrossMark + "Invalid time unit. Use 'ns' or 'ps'")];
        return Err(InvalidUnit);
      }
      if count.Err? {
        return Err(BadStepCount(count.error));
      }
      var nsteps := count.value;
      var stored := MdpFile.ReadNsteps(dir.files, ProductionMdp);
      if stored.Err? {
        return Err(BadConfig(stored.error));
      }
      if stored.value.None? || stored.value.value != nsteps {
        if ProductionMdp in dir.files {
          MdpFileProperties.WriteFailsLikeRead(Lines(dir.files[ProductionMdp]), MdpFile.NstepsKey, MdpFile.NstepsPadding, nsteps);
        }
        var w := MdpFile.WriteNsteps(dir, ProductionMdp, nsteps);
        if w.Fail? {
          return Err(BadConfig(w.error));
        }
      }
      events := events + [Log(Info, "\U{23F3} Duration " + duration + unit + " \U{2192} dt = " + dt
                                    + " ps \U{2192} nsteps = " + IntToString(nsteps))];
      r := Ok(nsteps);
    }

    /** One preprocessing step of `run`: the cancel check, the command, its file, and progress 100. */
    method Preprocess(dir: WorkDir, command: string, step: string, artifact: string, run: ToolRun) returns (r: Outcome<Failure>)
      modifies this, dir
      ensures old(interrupted) ==>
        r == Fail(Runtime(UserCancelled)) && events == old(events) && launched == old(launched) && dir.files == old(dir.files)
      ensures !old(interrupted) ==>
        launched == old(launched) + [Launch(step, command)] && dir.files == old(dir.files) + run.created
      ensures r.Pass? <==> !old(interrupted) && run.exitCode == 0 && artifact in old(dir.files) + run.created
      ensures r.Pass? ==> |events| > |old(events)| && events[|events| - 1] == Progress(100, step)
      ensures LaunchesWithin(old(launched), launched, {step})
      ensures dir.files.Keys <= old(dir.files).Keys + run.created.Keys
      ensures Grows(old(events), events)
      ensures interrupted == (old(interrupted) || run.interruptAfter)
    {
      if interrupted {
        return Fail(Runtime(UserCancelled));
      }
      ghost var events0 := events;
      r := RunCommand(dir, command, step, run);
      ghost var events1 := events;
      if r.Fail? {
        return;
      }
      r := CheckFileExists(dir, artifact, step);
      GrowsTransitive(events0, events1, events);
      if r.Fail? {
        return;
      }
      events := events + [Progress(100, step)];
      GrowsTransitive(events0, events1, events);
    }

    /** An mdrun under supervision followed by the check of the file it must leave. */
    method MdrunStep(dir: WorkDir, command: string, step: string, artifact: string, run: MdrunRun) returns (r: Outcome<Failure>)
      modifies this, dir
      ensures launched == old(launched) || launched == old(launched) + [Launch(step, command)]
      ensures dir.files == old(dir.files) || dir.files == old(dir.files) + run.created
      ensures r.Pass? ==>
        launched == old(launched) + [Launch(step, command)] && artifact in dir.files
      ensures Grows(old(events), events)
      ensures interrupted == (old(interrupted) || ArrivesDuring(run))
    {
      ghost var events0 := events;
      r := MdrunWithProgress(dir, command, step, run);
      ghost var events1 := events;
      if r.Fail? {
        return;
      }
      r := CheckFileExists(dir, artifact, step);
      GrowsTransitive(events0, events1, events);
    }

    /** One mdrun step of `run`: the cancel check, then the built command under supervision and its file. */
    method Simulate(dir: WorkDir, base: string, step: string, artifact: string, gpuIds: string, run: MdrunRun)
      returns (r: Outcome<Failure>)
      modifies this, dir
      ensures old(interrupted) ==>
        r == Fail(Runtime(UserCancelled)) && events == old(events) && launched == old(launched) && dir.files == old(dir.files)
      ensures !old(interrupted) && Built(base, gpuIds, "").Err? ==>
        r == Fail(ZeroDivision) && events == old(events) && launched == old(launched) && dir.files == old(dir.files)
      ensures launched == old(launched)
        || (Built(base, gpuIds, "").Ok?
            && launched == old(launched) + [Launch(step, Built(base, gpuIds, "").value)])
      ensures LaunchesWithin(old(launched), launched, {step})
      ensures dir.files.Keys <= old(dir.files).Keys + run.created.Keys
      ensures r.Pass? ==>
        Built(base, gpuIds, "").Ok? && artifact in dir.files
        && launched == old(launched) + [Launch(step, Built(base, gpuIds, "").value)]
      ensures Grows(old(events), events)
      ensures old(interrupted) ==> interrupted
    {
      if interrupted {
        return Fail(Runtime(UserCancelled));
      }
      var built := Built(base, gpuIds, "");
      if built.Err? {
        return Fail(ZeroDivision);
      }
      r := MdrunStep(dir, built.value, step, artifact, run);
    }

    /**
     * The file work before the production run: the time step, `nstlist`
     * forced to 300, then the nsteps rule. Only the production configuration
     * file changes, and a time step `float()` rejects stops before any write.
     */
    method ConfigureProduction(dir: WorkDir, world: World) returns (r: Result<(int, int), Failure>)
      modifies this, dir
      ensures world.dt.Err? ==> r == Err(BadFloat(world.dt.error)) && dir.files == old(dir.files) && events == old(events)
      ensures world.nsteps.Err? ==> r.Err?
      ensures r.Ok? ==> world.dt.Ok? && world.nsteps.Ok? && r.value == (MdpFile.DefaultNstlist, world.nsteps.value)
      ensures forall path :: path != ProductionMdp ==> (path in dir.files <==> path in old(dir.files))
      ensures Files.KeepsOthers(old(dir.files), dir.files, ProductionMdp)
      ensures Grows(old(events), events)
      ensures interrupted == old(interrupted) && launched == old(launched)
    {
      if world.dt.Err? {
        return Err(BadFloat(world.dt.error));
      }
      ghost var events0 := events;
      var nstlist := MdpFile.ExtractAndReplaceNstlist(dir, ProductionMdp, 300);
      if nstlist.Err? {
        return Err(BadConfig(nstlist.error));
      }
      ghost var files1 := dir.files;
      var nsteps := CalculateNsteps(dir, world.dt.value, world.nsteps);
      assert Grows(events0, events) by {
        assert events[|events0|..] == [] || events[|events0|..] == [events[|events0|]];
      }
      if nsteps.Err? {
        return Err(nsteps.error);
      }
      r := Ok((nstlist.value, nsteps.value));
    }

    /**
     * Step 6 of `run`: the cancel check, the configuration, then the
     * production command, resuming from the checkpoint when there is one,
     * under supervision, and progress 100.
     */
    method Production(dir: WorkDir, gpuIds: string, world: World) returns (r: Outcome<Failure>)
      modifies this, dir
      ensures old(interrupted) ==>
        r == Fail(Runtime(UserCancelled)) && events == old(events) && launched == old(launched) && dir.files == old(dir.files)
      ensures var c := ProductionLaunch(CheckpointFile in old(dir.files), gpuIds, world.nsteps);
        launched == old(launched) || (c.Some? && launched == old(launched) + [Launch(Step6, c.value)])
      ensures r.Pass? ==>
        var c := ProductionLaunch(CheckpointFile in old(dir.files), gpuIds, world.nsteps);
        c.Some? && launched == old(launched) + [Launch(Step6, c.value)] && "step5_1.gro" in dir.files
      ensures Grows(old(events), events)
      ensures old(interrupted) ==> interrupted
    {
      if interrupted {
        return Fail(Runtime(UserCancelled));
      }
      ghost var events0 := events;
      ghost var c := ProductionLaunch(CheckpointFile in dir.files, gpuIds, world.nsteps);
      var config := ConfigureProduction(dir, world);
      if config.Err? {
        return Fail(config.error);
      }
      ghost var configured := events;
      var checkpoint := CheckpointFile in dir.files;
      if checkpoint {
        events := events + [Log(Warning, WarningSign + "Detected checkpoint (step5_1.cpt), resuming simulation...")];
        GrowsByOne(events0, configured, Log(Warning, WarningSign + "Detected checkpoint (step5_1.cpt), resuming simulation..."));
      }
      ghost var events1 := events;
      var built := Built(ProductionBase(checkpoint, engine), gpuIds, ProductionExtra(config.value.0, config.value.1));
      if built.Err? {
        return Fail(ZeroDivision);
      }
      assert c == Some(built.value);
      r := MdrunStep(dir, built.value, Step6, "step5_1.gro", world.prod);
      GrowsTransitive(events0, events1, events);
      if r.Fail? {
        return;
      }
      ghost var events2 := events;
      events := events + [Progress(100, Step6)];
      GrowsByOne(events0, events2, Progress(100, Step6));
    }

    /**
     * The checkpoint loop of `run`: each of steps 1 to 5 is reported as done,
     * with a warning when its file is missing; the flag, checked before each
     * step, ends the run with a warning and `finished`.
     */
    method SkipPreparedSteps(dir: WorkDir, pauses: seq<bool>) returns (cancelled: bool)
      modifies this
      ensures var n := CancelPoint(old(interrupted), pauses, 0);
        (cancelled <==> n < 5)
        && events == old(events) + SkipAll(Skipped[..n], dir.files)
                     + (if cancelled then [Log(Warning, WarningSign + UserCancelled), Finished] else [])
      ensures launched == old(launched)
      ensures cancelled ==> interrupted
      ensures !cancelled ==> interrupted == SeenAt(old(interrupted), pauses, 5)
    {
      ghost var flag0 := interrupted;
      var k := 0;
      while k < 5 && !interrupted
        invariant 0 <= k <= 5
        invariant interrupted == SeenAt(flag0, pauses, k)
        invariant CancelPoint(flag0, pauses, 0) == CancelPoint(flag0, pauses, k)
        invariant events == old(events) + SkipAll(Skipped[..k], dir.files)
        invariant launched == old(launched)
      {
        ReportSkipped(dir, Skipped[k]);
        SkipAllStep(old(events), Skipped, k, dir.files);
        CancelPointStep(flag0, pauses, k);
        if Arrives(pauses, k) {
          interrupted := true;
        }
        k := k + 1;
      }
      if k < 5 {
        events := events + [Log(Warning, WarningSign + UserCancelled), Finished];
        return true;
      }
      return false;
    }

    /** One pass of the checkpoint loop's body: the step is reported done, with a warning when its file is missing. */
    method ReportSkipped(dir: WorkDir, s: SkippedStep)
      modifies this
      ensures events == old(events) + SkipEvents(s, dir.files)
      ensures launched == old(launched) && interrupted == old(interrupted)
    {
      events := events + [Progress(100, s.name), Log(Success, CheckMark + "Success: " + s.name + " (skipped due to checkpoint)")];
      if s.artifact !in dir.files {
        events := events + [Log(Warning, WarningSign + "File " + s.artifact + " not found after " + s.name + " (skipped)")];
      }
    }

    /** A preprocessing step and the mdrun step that uses its output, the second started only when the first succeeded. */
    method Stage(dir: WorkDir, grompp: string, prepStep: string, tpr: string, base: string, runStep: string, gro: string,
                 gpuIds: string, prep: ToolRun, run: MdrunRun)
      returns (r: Outcome<Failure>)
      modifies this, dir
      ensures old(interrupted) ==>
        r.Fail? && events == old(events) && launched == old(launched) && dir.files == old(dir.files)
      ensures LaunchesWithin(old(launched), launched, {prepStep, runStep})
      ensures dir.files.Keys <= old(dir.files).Keys + prep.created.Keys + run.created.Keys
      ensures r.Pass? ==>
        Built(base, gpuIds, "").Ok?
        && launched == old(launched) + [Launch(prepStep, grompp),
                                        Launch(runStep, Built(base, gpuIds, "").value)]
      ensures Grows(old(events), events)
      ensures old(interrupted) ==> interrupted
    {
      ghost var e0, l0 := events, launched;
      r := Preprocess(dir, grompp, prepStep, tpr, prep);
      ghost var e1, l1 := events, launched;
      LaunchesWiden(l0, l1, {prepStep}, {prepStep, runStep});
      if r.Fail? {
        return;
      }
      r := Simulate(dir, base, runStep, gro, gpuIds, run);
      LaunchesWiden(l1, launched, {runStep}, {prepStep, runStep});
      LaunchesTransitive(l0, l1, launched, {prepStep, runStep});
      GrowsTransitive(e0, e1, events);
    }

    /** Steps 3 to 5 of `run`: equilibration and the preprocessing of production. */
    method Equilibrate(dir: WorkDir, gpuIds: string, world: World) returns (r: Outcome<Failure>)
      modifies this, dir
      ensures old(interrupted) ==>
        r.Fail? && events == old(events) && launched == old(launched) && dir.files == old(dir.files)
      ensures LaunchesWithin(old(launched), launched, {Step3, Step4, Step5})
      ensures dir.files.Keys <= old(dir.files).Keys + world.prepEq.created.Keys + world.eq.created.Keys + world.prepProd.created.Keys
      ensures r.Pass? ==>
        Built(EquilibrationBase, gpuIds, "").Ok?
        && launched == old(launched) + [
             Launch(Step3, Grompp3),
             Launch(Step4, Built(EquilibrationBase, gpuIds, "").value),
             Launch(Step5, Grompp5)]
      ensures Grows(old(events), events)
      ensures old(interrupted) ==> interrupted
    {
      ghost var e0, l0 := events, launched;
      r := Stage(dir, Grompp3, Step3, "step4.1_equilibration.tpr", EquilibrationBase, Step4, "step4.1_equilibration.gro",
                 gpuIds, world.prepEq, world.eq);
      ghost var e1, l1 := events, launched;
      LaunchesWiden(l0, l1, {Step3, Step4}, {Step3, Step4, Step5});
      if r.Fail? {
        return;
      }
      r := Preprocess(dir, Grompp5, Step5, "step5_1.tpr", world.prepProd);
      if r.Pass? {
        ThreeLaunches(l0, Launch(Step3, Grompp3), Launch(Step4, Built(EquilibrationBase, gpuIds, "").value), Launch(Step5, Grompp5));
      }
      LaunchesWiden(l1, launched, {Step5}, {Step3, Step4, Step5});
      LaunchesTransitive(l0, l1, launched, {Step3, Step4, Step5});
      GrowsTransitive(e0, e1, events);
    }

    /** Steps 1 to 5 of `run`, each started only when the one before succeeded. */
    method Prepare(dir: WorkDir, gpuIds: string, world: World) returns (r: Outcome<Failure>)
      modifies this, dir
      ensures old(interrupted) ==>
        r.Fail? && events == old(events) && launched == old(launched) && dir.files == old(dir.files)
      ensures LaunchesWithin(old(launched), launched, PreparationSteps)
      ensures dir.files.Keys <= old(dir.files).Keys + PreparationFiles(world)
      ensures r.Pass? ==>
        Built(MinimizationBase, gpuIds, "").Ok? && Built(EquilibrationBase, gpuIds, "").Ok?
        && launched == old(launched) + [
             Launch(Step1, Grompp1),
             Launch(Step2, Built(MinimizationBase, gpuIds, "").value),
             Launch(Step3, Grompp3),
             Launch(Step4, Built(EquilibrationBase, gpuIds, "").value),
             Launch(Step5, Grompp5)]
      ensures Grows(old(events), events)
      ensures old(interrupted) ==> interrupted
    {
      ghost var e0, l0 := events, launched;
      r := Stage(dir, Grompp1, Step1, "step4.0_minimization.tpr", MinimizationBase, Step2, "step4.0_minimization.gro",
                 gpuIds, world.prepMin, world.min);
      ghost var e1, l1 := events, launched;
      LaunchesWiden(l0, l1, {Step1, Step2}, PreparationSteps);
      if r.Fail? {
        return;
      }
      r := Equilibrate(dir, gpuIds, world);
      if r.Pass? {
        FiveLaunches(l0, Launch(Step1, Grompp1), Launch(Step2, Built(MinimizationBase, gpuIds, "").value),
                     Launch(Step3, Grompp3), Launch(Step4, Built(EquilibrationBase, gpuIds, "").value), Launch(Step5, Grompp5));
      }
      LaunchesWiden(l1, launched, {Step3, Step4, Step5}, PreparationSteps);
      LaunchesTransitive(l0, l1, launched, PreparationSteps);
      GrowsTransitive(e0, e1, events);
    }

    /** The checkpoint branch of `run`: the notice, then the skip loop; a cancelled loop has ended the run with `finished`. */
    method Resume(dir: WorkDir, pauses: seq<bool>) returns (proceed: bool)
      modifies this
      ensures proceed ==> Grows(old(events), events)
      ensures !proceed ==>
        Closed(old(events), events)
      ensures launched == old(launched)
      ensures old(interrupted) ==> !proceed && interrupted
    {
      ghost var e0 := events;
      events := events + [Log(Warning, WarningSign + "Checkpoint found, skipping Steps 1-5...")];
      var cancelled := SkipPreparedSteps(dir, pauses);
      ghost var skipped := SkipAll(Skipped[..CancelPoint(old(interrupted), pauses, 0)], dir.files);
      if cancelled {
        CheckpointCancelled(e0, Log(Warning, WarningSign + "Checkpoint found, skipping Steps 1-5..."), skipped,
                            Log(Warning, WarningSign + UserCancelled));
        return false;
      }
      CheckpointSkipped(e0, Log(Warning, WarningSign + "Checkpoint found, skipping Steps 1-5..."), skipped);
      return true;
    }

    /**
     * The part of `run` before production: with a checkpoint, the skip loop;
     * without one, steps 1 to 5. When it does not go on to production, the
     * run has ended with `finished`.
     */
    method PrepareOrSkip(dir: WorkDir, gpuIds: string, world: World) returns (proceed: bool)
      modifies this, dir
      ensures proceed ==> Grows(old(events), events)
      ensures !proceed ==>
        Closed(old(events), events)
      ensures LaunchesWithin(old(launched), launched, PreparationSteps)
      ensures old(interrupted) ==> !proceed && launched == old(launched) && interrupted
      ensures CheckpointFile in old(dir.files) ==> launched == old(launched) && dir.files == old(dir.files)
      ensures CheckpointFile in old(dir.files) || CheckpointFile !in PreparationFiles(world) ==>
        (CheckpointFile in dir.files <==> CheckpointFile in old(dir.files))
    {
      ghost var e0 := events;
      if CheckpointFile in dir.files {
        proceed := Resume(dir, world.pauses);
        return;
      }
      var r := Prepare(dir, gpuIds, world);
      if r.Fail? {
        ghost var e1 := events;
        events := events + [ErrorLog(r.error), Finished];
        ClosesWith(e0, e1, ErrorLog(r.error));
        return false;
      }
      return true;
    }

    /**
     * The steps of `run()` after the environment is set up: preparation or
     * the skip loop, production, and the closing `finished`.
     */
    method Steps(dir: WorkDir, gpuIds: string, world: World)
      modifies this, dir
      ensures Closed(old(events), events)
      ensures LaunchesWithin(old(launched), launched, PreparationSteps + {Step6})
      ensures old(interrupted) ==> launched == old(launched) && interrupted
      ensures CheckpointFile in old(dir.files) ==> LaunchesWithin(old(launched), launched, {Step6})
      ensures CheckpointFile in old(dir.files) || CheckpointFile !in PreparationFiles(world) ==>
        forall l :: l in launched[|old(launched)|..] && l.step == Step6 ==>
          Some(l.command) == ProductionLaunch(CheckpointFile in old(dir.files), gpuIds, world.nsteps)
    {
      ghost var e0, l0, files0 := events, launched, dir.files;
      var proceed := PrepareOrSkip(dir, gpuIds, world);
      if !proceed {
        ProductionLaunches(l0, launched, launched, false, None);
        return;
      }
      ghost var l2 := launched;
      ghost var checkpoint := CheckpointFile in dir.files;
      ghost var e2 := events;
      var _ := Finish(dir, gpuIds, world);
      GrowsThenClosed(e0, e2, events);
      ProductionLaunches(l0, l2, launched, checkpoint, ProductionLaunch(checkpoint, gpuIds, world.nsteps));
    }

    /** Step 6 and the closing message and `finished`, or the error and `finished`. */
    method Finish(dir: WorkDir, gpuIds: string, world: World) returns (r: Outcome<Failure>)
      modifies this, dir
      ensures Closed(old(events), events)
      ensures var c := ProductionLaunch(CheckpointFile in old(dir.files), gpuIds, world.nsteps);
        launched == old(launched) || (c.Some? && launched == old(launched) + [Launch(Step6, c.value)])
      ensures old(interrupted) ==> launched == old(launched) && interrupted && r == Fail(Runtime(UserCancelled))
      ensures |events| >= |old(events)| + 2
      ensures r.Pass? ==>
        var c := ProductionLaunch(CheckpointFile in old(dir.files), gpuIds, world.nsteps);
        events[|events| - 2] == CompletedLog && c.Some? && launched == old(launched) + [Launch(Step6, c.value)] &&
        "step5_1.gro" in dir.files
      ensures r.Fail? ==> events[|events| - 2] == ErrorLog(r.error)
    {
      r := Production(dir, gpuIds, world);
      ghost var e1 := events;
      var last := if r.Fail? then ErrorLog(r.error) else CompletedLog;
      events := events + [last, Finished];
      ClosesWith(old(events), e1, last);
    }

    /**
     * `run()`: changes to the working directory, sets up the environment,
     * and runs the steps; `finished` is emitted exactly once, whichever way
     * the run ends.
     */
    method Run(dir: WorkDir, env: Environment.ProcessEnvironment, p: Environment.Platform, scriptDir: string, world: World)
      modifies this, dir, env
      ensures Closed(old(events), events)
      ensures LaunchesWithin(old(launched), launched, PreparationSteps + {Step6})
      ensures old(interrupted) ==> launched == old(launched) && interrupted
      ensures CheckpointFile in old(dir.files) ==> LaunchesWithin(old(launched), launched, {Step6})
      ensures CheckpointFile in old(dir.files) || CheckpointFile !in PreparationFiles(world) ==>
        forall l :: l in launched[|old(launched)|..] && l.step == Step6 ==>
          Some(l.command) == ProductionLaunch(CheckpointFile in old(dir.files), Environment.GpuIds(numGpus), world.nsteps)
      ensures env.vars == Environment.AfterSetup(old(env.vars), p, scriptDir, engine, Environment.GpuIds(numGpus))
    {
      ghost var e0 := events;
      events := events + [Log(Info, "\U{1F4C2} Changed working directory to: " + workdir)];
      GrowsBy(e0, [Log(Info, "\U{1F4C2} Changed working directory to: " + workdir)]);
      var manager := new Environment.EnvironmentManager(numGpus, engine);
      ghost var vars0 := env.vars;
      assert vars0 == old(env.vars);
      manager.Setup(env, p, scriptDir);
      assert manager.engine == engine && manager.gpuIds == Environment.GpuIds(numGpus);
      assert env.vars == Environment.AfterSetup(vars0, p, scriptDir, engine, Environment.GpuIds(numGpus));
      ghost var e1 := events;
      Steps(dir, manager.gpuIds, world);
      GrowsThenClosed(e0, e1, events);
    }
  }

  // ---------------------------------------------------------------------
  // Properties of the pipeline
  // ---------------------------------------------------------------------

  const ProductionPrefix: string := "gmx mdrun -v -deffnm step5_1"
  const ResumeFlags: string := " -cpi step5_1.cpt -append"
  const OffloadFlags: string := " -nb gpu -bonded gpu"

  lemma ResumeLayout()
    ensures ProductionPrefix + ResumeFlags == "gmx mdrun -v -deffnm step5_1 -cpi step5_1.cpt -append"
  {
  }

  lemma ResumeOffloadLayout()
    ensures ProductionPrefix + ResumeFlags + OffloadFlags
      == "gmx mdrun -v -deffnm step5_1 -cpi step5_1.cpt -append -nb gpu -bonded gpu"
  {
    ResumeLayout();
    var resumed := "gmx mdrun -v -deffnm step5_1 -cpi step5_1.cpt -append";
    assert resumed + OffloadFlags == "gmx mdrun -v -deffnm step5_1 -cpi step5_1.cpt -append -nb gpu -bonded gpu";
  }

  lemma OffloadLayout()
    ensures ProductionPrefix + OffloadFlags == "gmx mdrun -v -deffnm step5_1 -nb gpu -bonded gpu"
  {
  }

  /**
   * The four production commands are one layout: the base, the resume
   * flags exactly when there is a checkpoint, and the offload flags exactly
   * when the engine is not the CPU.
   */
  lemma ProductionBaseLayout(checkpoint: bool, engine: string)
    ensures ProductionBase(checkpoint, engine)
      == ProductionPrefix
         + (if checkpoint then ResumeFlags else "")
         + (if engine != GpuCommand.CpuEngine then OffloadFlags else "")
  {
    if checkpoint {
      if engine != GpuCommand.CpuEngine {
        ResumeOffloadLayout();
      } else {
        ResumeLayout();
        assert ProductionPrefix + ResumeFlags + "" == ProductionPrefix + ResumeFlags;
      }
    } else if engine != GpuCommand.CpuEngine {
      OffloadLayout();
      assert ProductionPrefix + "" + OffloadFlags == ProductionPrefix + OffloadFlags;
    } else {
      assert ProductionPrefix + "" + "" == ProductionPrefix;
    }
  }

  /** A reported value below 100 never shows as 100 on the bar, and a larger value never shows smaller. */
  lemma TruncateOrder(x: real, y: real)
    requires 0.0 <= x <= y
    ensures Truncate(x) <= Truncate(y)
    ensures y <= 99.9 ==> Truncate(y) <= 99
    ensures Truncate(100.0) == 100
  {
    assert Truncate(100.0) as real <= 100.0 < Truncate(100.0) as real + 1.0;
  }

  /**
   * With a negative step count the bar goes down: once the steps differ by
   * at least `-total / 100`, the later value shows at least one less.
   * For nsteps `-1`, step 0 shows 0 and step 5 shows -500.
   */
  lemma ShownProgressFallsForNegativeTotal(a: nat, b: nat, total: int)
    requires total < 0 && a < b && (b - a) * 100 >= -total
    ensures Truncate(CommandRunner.Percent(b, total)) < Truncate(CommandRunner.Percent(a, total))
  {
    CommandRunner.PercentFallsForNegativeTotal(a, b, total);
    var t := total as real;
    var q := (b - a) as real / t * 100.0;
    assert q * t == (b - a) as real * 100.0;
    assert (q + 1.0) * t >= 0.0;
    assert q <= -1.0 by {
      if q > -1.0 {
        assert false;
      }
    }
  }

  /**
   * What the bar shows for one mdrun with a positive nsteps: it never goes
   * down, stays at 99 or below while the process runs, and reaches 100 only
   * with the value reported at a normal exit.
   */
  lemma {:induction false} ForwardedProgress(files: map<string, string>, command: string, step: string,
                                             ticks: seq<CommandRunner.Tick>, exitCode: int)
    requires CommandRunner.TotalSteps(files, command).Ok? && CommandRunner.TotalSteps(files, command).value > 0
    ensures var rep := CommandRunner.Supervisor(files, command, step, ticks, exitCode);
      var shown := Forwarded(rep.progress, step);
      var exited := !rep.outcome.TerminatedByUser?;
      (forall k, j :: 0 <= k < j < |shown| ==> shown[k].percent <= shown[j].percent)
      && (forall k :: 0 <= k < |shown| - (if exited then 1 else 0) ==> 0 <= shown[k].percent <= 99)
      && (exited ==> |shown| >= 1 && shown[|shown| - 1].percent == 100)
  {
    var rep := CommandRunner.Supervisor(files, command, step, ticks, exitCode);
    var shown := Forwarded(rep.progress, step);
    CommandRunner.ProgressNeverDecreases(files, command, step, ticks, exitCode);
    CommandRunner.HundredOnlyAtExit(files, command, step, ticks, exitCode);
    CommandRunner.NoLaunchWithoutNsteps(files, command, step, ticks, exitCode);
    forall k, j | 0 <= k < j < |shown|
      ensures shown[k].percent <= shown[j].percent
    {
      TruncateOrder(rep.progress[k], rep.progress[j]);
    }
    var exited := !rep.outcome.TerminatedByUser?;
    forall k | 0 <= k < |shown| - (if exited then 1 else 0)
      ensures 0 <= shown[k].percent <= 99
    {
      var running := if exited then rep.progress[..|rep.progress| - 1] else rep.progress;
      assert running[k] == rep.progress[k] <= 99.9;
      TruncateOrder(rep.progress[k], rep.progress[k]);
    }
    if exited {
      TruncateOrder(0.0, 100.0);
    }
  }

  /** Each step the checkpoint lets the run skip is reported done, and warned about when its file is missing. */
  lemma {:induction false} SkipReportsEach(steps: seq<SkippedStep>, files: map<string, string>)
    ensures forall i :: 0 <= i < |steps| ==>
      Progress(100, steps[i].name) in SkipAll(steps, files)
      && Log(Success, CheckMark + "Success: " + steps[i].name + " (skipped due to checkpoint)") in SkipAll(steps, files)
      && (steps[i].artifact !in files ==> SkipWarning(steps[i]) in SkipAll(steps, files))
  {
    if steps != [] {
      var front := steps[..|steps| - 1];
      SkipReportsEach(front, files);
      forall i | 0 <= i < |front|
        ensures steps[i] == front[i]
      {
      }
    }
  }

  /** Every warning the skip loop emits is the warning of a step whose file is missing. */
  lemma {:induction false} SkipWarnsOnlyMissing(steps: seq<SkippedStep>, files: map<string, string>)
    ensures forall e :: e in SkipAll(steps, files) && e.Log? && e.level == Warning ==>
      exists i :: 0 <= i < |steps| && steps[i].artifact !in files && e == SkipWarning(steps[i])
  {
    if steps != [] {
      var front := steps[..|steps| - 1];
      var last := steps[|steps| - 1];
      SkipWarnsOnlyMissing(front, files);
      forall e | e in SkipAll(steps, files) && e.Log? && e.level == Warning
        ensures exists i :: 0 <= i < |steps| && steps[i].artifact !in files && e == SkipWarning(steps[i])
      {
        if e in SkipAll(front, files) {
          var i :| 0 <= i < |front| && front[i].artifact !in files && e == SkipWarning(front[i]);
          assert steps[i] == front[i];
        } else {
          assert e in SkipEvents(last, files);
          assert steps[|steps| - 1] == last;
        }
      }
    }
  }

  /** For the five steps of the loop, a step's warning is emitted exactly when its file is missing. */
  lemma SkippedWarnExactly(files: map<string, string>)
    ensures forall i :: 0 <= i < |Skipped| ==>
      (SkipWarning(Skipped[i]) in SkipAll(Skipped, files) <==> Skipped[i].artifact !in files)
  {
    SkipReportsEach(Skipped, files);
    SkipWarnsOnlyMissing(Skipped, files);
    forall i | 0 <= i < |Skipped| && SkipWarning(Skipped[i]) in SkipAll(Skipped, files)
      ensures Skipped[i].artifact !in files
    {
      var j :| 0 <= j < |Skipped| && Skipped[j].artifact !in files && SkipWarning(Skipped[i]) == SkipWarning(Skipped[j]);
      SkipWarningLength(Skipped[i]);
      SkipWarningLength(Skipped[j]);
      SkippedLengthsDistinct(i, j);
    }
  }

  lemma SkipWarningLength(s: SkippedStep)
    ensures |SkipWarning(s).message| == |WarningSign| + 22 + |s.artifact| + |s.name| + 10
  {
  }

  /** The five steps' file and step names differ in total length, so their warnings differ. */
  lemma SkippedLengthsDistinct(i: nat, j: nat)
    requires i < |Skipped| && j < |Skipped|
    requires |Skipped[i].artifact| + |Skipped[i].name| == |Skipped[j].artifact| + |Skipped[j].name|
    ensures i == j
  {
  }

  /**
   * The two engine checks disagree: an engine that is neither the CPU nor
   * CUDA gets the GPU flags, `-gpu_id` among them, while the environment it
   * runs in has no `CUDA_VISIBLE_DEVICES`.
   */
  lemma EngineChecksDisagree(vars: map<string, string>, p: Environment.Platform, scriptDir: string,
                             numGpus: int, numCores: int, gpuIds: string, engine: string, stage: GpuCommand.Stage)
    requires engine != GpuCommand.CpuEngine && engine != Environment.CudaEngine && numGpus != 0
    ensures GpuCommand.EngineFlags(numGpus, numCores, gpuIds, engine, stage).Ok?
    ensures "-gpu_id" in GpuCommand.EngineFlags(numGpus, numCores, gpuIds, engine, stage).value
    ensures "CUDA_VISIBLE_DEVICES" !in Environment.AfterSetup(vars, p, scriptDir, engine, gpuIds)
  {
    GpuCommand.GpuIdsOnlyForGpuEngine(numGpus, numCores, gpuIds, engine, stage);
    Environment.OtherSetupClearsGpuKeys(vars, p, scriptDir, engine, gpuIds);
  }
}
