/*
 * The mdrun supervisor (command_runner.py): it names the stage's files,
 * reads the step count the progress is measured against, and then, once
 * per poll of the running process, re-reads the output and reports the
 * largest step number seen so far as a percentage.
 */
module CommandRunner {
  import opened Wrappers
  import opened Text
  import MdpFile
  import opened Files

  // ---------------------------------------------------------------------
  // File names and the launched command
  // ---------------------------------------------------------------------

  /** `step_name.replace(" ", "_").replace(":", "")`. */
  function SafeName(stepName: string): (r: string)
    ensures ' ' !in r && ':' !in r
    ensures |r| <= |stepName|
  {
    if stepName == [] then []
    else
      var rest := SafeName(stepName[1..]);
      if stepName[0] == ':' then rest
      else if stepName[0] == ' ' then "_" + rest
      else [stepName[0]] + rest
  }

  /** The configuration file whose `nsteps` measures a command's progress, by the first stage marker it contains. */
  function TargetMdp(command: string): (r: Option<string>)
    ensures r == Some("step4.0_minimization.mdp") <==> Contains(command, "step4.0")
    ensures r == Some("step4.1_equilibration.mdp") <==> !Contains(command, "step4.0") && Contains(command, "step4.1")
    ensures r == Some("step5_production.mdp") <==>
      !Contains(command, "step4.0") && !Contains(command, "step4.1")
      && (Contains(command, "step5_1") || Contains(command, "step5_production"))
    ensures r.Some? ==> r.value in {"step4.0_minimization.mdp", "step4.1_equilibration.mdp", "step5_production.mdp"}
  {
    if Contains(command, "step4.0") then Some("step4.0_minimization.mdp")
    else if Contains(command, "step4.1") then Some("step4.1_equilibration.mdp")
    else if Contains(command, "step5_1") || Contains(command, "step5_production") then Some("step5_production.mdp")
    else None
  }

  function DefaultLogFile(safeName: string): string {
    "progress_" + safeName + ".log"
  }

  function OutputFile(safeName: string): string {
    "output_" + safeName + ".txt"
  }

  /** The word after the first `-deffnm` word that has one. */
  function DeffnmValue(words: seq<string>): (r: Option<string>)
    ensures r.Some? <==> exists i :: 0 <= i < |words| - 1 && words[i] == "-deffnm"
  {
    if |words| < 2 then None
    else if words[0] == "-deffnm" then Some(words[1])
    else match DeffnmValue(words[1..])
      case Some(d) => assert words[1..][0] == words[1]; Some(d)
      case None =>
        assert forall i :: 1 <= i < |words| - 1 ==> words[i] == words[1..][i - 1];
        None
  }

  /** The log file mdrun is pointed at: `{deffnm}.log`, or the default when the command names no `-deffnm`. */
  function LogFile(command: string, safeName: string): string {
    if Contains(command, "-deffnm") then
      match DeffnmValue(Words(command))
      case Some(d) => d + ".log"
      case None => DefaultLogFile(safeName)
    else DefaultLogFile(safeName)
  }

  /** `-g {log}` is appended unless the text `-g` already occurs anywhere in the command. */
  function WithLogFlag(command: string, logFile: string): string {
    if Contains(command, "-g") then command else command + " -g " + logFile
  }

  // ---------------------------------------------------------------------
  // The two step-number patterns, matched case-insensitively
  // ---------------------------------------------------------------------

  /** `c` is the lower-case ASCII letter `lower` or its upper-case form. */
  predicate AsciiCase(c: char, lower: char)
    requires 'a' <= lower <= 'z'
  {
    c == lower || c == (lower as int - 32) as char
  }

  /** The characters IGNORECASE matching accepts for a lower-case ASCII letter of `step`; a long s matches `s`. */
  predicate LetterLike(c: char, lower: char)
    requires 'a' <= lower <= 'z'
  {
    AsciiCase(c, lower) || (lower == 's' && c == '\U{17F}')
  }

  /** `step` at `i`, in any letter case. */
  predicate StepWordAt(line: string, i: nat) {
    i + 4 <= |line| && LetterLike(line[i], 's') && LetterLike(line[i + 1], 't')
    && LetterLike(line[i + 2], 'e') && LetterLike(line[i + 3], 'p')
  }

  /** `(?<!\S)`: the start of the line or a whitespace character before `i`. */
  predicate Boundary(line: string, i: nat) {
    i == 0 || (i <= |line| && IsSpace(line[i - 1]))
  }

  /** `\s*` from `k`: the end of the run of whitespace. */
  function SkipSpaces(line: string, k: nat): (m: nat)
    requires k <= |line|
    ensures k <= m <= |line|
    ensures forall j :: k <= j < m ==> IsSpace(line[j])
    ensures m == |line| || !IsSpace(line[m])
    decreases |line| - k
  {
    if k < |line| && IsSpace(line[k]) then SkipSpaces(line, k + 1) else k
  }

  /** `\d+` from `k`, greedy: the length of the run of digits, zero when there is none. */
  function DigitRun(line: string, k: nat): (n: nat)
    requires k <= |line|
    ensures k + n <= |line|
    ensures forall j :: k <= j < k + n ==> IsDigit(line[j])
    ensures k + n == |line| || !IsDigit(line[k + n])
    decreases |line| - k
  {
    if k < |line| && IsDigit(line[k]) then 1 + DigitRun(line, k + 1) else 0
  }

  /** The number `\d+` captures at `k`, if a digit is there. */
  function NumberAt(line: string, k: nat): Option<nat>
    requires k <= |line|
  {
    var n := DigitRun(line, k);
    if n == 0 then None else Some(DigitsValue(line[k..k + n]))
  }

  /** `(?<!\S)step=\s*(\d+)` tried at position `i`: the captured number. */
  function MinimizationAt(line: string, i: nat): Option<nat> {
    if Boundary(line, i) && StepWordAt(line, i) && i + 4 < |line| && line[i + 4] == '=' then
      NumberAt(line, SkipSpaces(line, i + 5))
    else None
  }

  /** Where `steps?` ends: after `step`, and after one more `s` when there is one. */
  function AfterStep(line: string, i: nat): nat
    requires StepWordAt(line, i)
  {
    if i + 4 < |line| && LetterLike(line[i + 4], 's') then i + 5 else i + 4
  }

  /** `(?<!\S)(steps?\s*=\s*|step\s*)(\d+)` tried at position `i`: the number of the second group. */
  function StageStepAt(line: string, i: nat): Option<nat> {
    if Boundary(line, i) && StepWordAt(line, i) then
      var eq := SkipSpaces(line, AfterStep(line, i));
      var first := if eq < |line| && line[eq] == '=' then NumberAt(line, SkipSpaces(line, eq + 1)) else None;
      if first.Some? then first else NumberAt(line, SkipSpaces(line, i + 4))
    else None
  }

  function MatchAt(line: string, i: nat, minimization: bool): Option<nat> {
    if minimization then MinimizationAt(line, i) else StageStepAt(line, i)
  }

  /** A match: where it starts and the number it captures. */
  datatype Match = Match(start: nat, value: nat)

  /** The first position from `from` on where an attempt succeeds, given the outcome of the attempt at each position. */
  function Leftmost(attempts: seq<Option<nat>>, from: nat): (r: Option<Match>)
    requires from <= |attempts|
    ensures r.Some? ==> from <= r.value.start < |attempts| && attempts[r.value.start] == Some(r.value.value)
    ensures r.Some? ==> forall j :: from <= j < r.value.start ==> attempts[j].None?
    ensures r.None? ==> forall j :: from <= j < |attempts| ==> attempts[j].None?
    decreases |attempts| - from
  {
    if from == |attempts| then None
    else if attempts[from].Some? then Some(Match(from, attempts[from].value))
    else Leftmost(attempts, from + 1)
  }

  /** `re.search`: the match at the leftmost position where the pattern matches. */
  function Search(line: string, minimization: bool, from: nat): (r: Option<Match>)
    requires from <= |line|
    ensures r.Some? ==> from <= r.value.start <= |line| && MatchAt(line, r.value.start, minimization) == Some(r.value.value)
    ensures r.Some? ==> forall j {:trigger MatchAt(line, j, minimization)} :: from <= j < r.value.start ==> MatchAt(line, j, minimization).None?
    ensures r.None? ==> forall i {:trigger MatchAt(line, i, minimization)} :: from <= i <= |line| ==> MatchAt(line, i, minimization).None?
  {
    var attempts := seq(|line| + 1, i requires 0 <= i <= |line| => MatchAt(line, i, minimization));
    assert forall i :: 0 <= i <= |line| ==> attempts[i] == MatchAt(line, i, minimization);
    Leftmost(attempts, from)
  }

  /** ASCII lower case, which is all of `str.lower` that can produce the letters of `step`. */
  function AsciiLower(s: string): (r: string)
    ensures |r| == |s|
    ensures forall j :: 0 <= j < |s| ==>
      (r[j] == 's' <==> AsciiCase(s[j], 's')) && (r[j] == 't' <==> AsciiCase(s[j], 't'))
      && (r[j] == 'e' <==> AsciiCase(s[j], 'e')) && (r[j] == 'p' <==> AsciiCase(s[j], 'p'))
    ensures forall j :: 0 <= j < |s| ==> !('A' <= r[j] <= 'Z')
    ensures forall j :: 0 <= j < |s| && !('A' <= s[j] <= 'Z') ==> r[j] == s[j]
  {
    seq(|s|, j requires 0 <= j < |s| => if 'A' <= s[j] <= 'Z' then (s[j] as int + 32) as char else s[j])
  }

  /** The step number a line of output reports: the line mentions `step` and the stage's pattern matches. */
  function LineStep(line: string, minimization: bool): Option<nat> {
    if Contains(AsciiLower(line), "step") then
      match Search(line, minimization, 0)
      case Some(m) => Some(m.value)
      case None => None
    else None
  }

  // ---------------------------------------------------------------------
  // The supervisor, stated as a function of its inputs
  // ---------------------------------------------------------------------

  /**
   * One poll that found the process still running: whether the interrupt
   * check reported true, and the text of the output file at that moment.
   */
  datatype Tick = Tick(interrupted: bool, output: string)

  /** `min(current / total_nsteps * 100, 99.9)`. */
  function Percent(step: nat, total: int): (p: real)
    requires total != 0
    ensures p <= 99.9
    ensures total > 0 ==> 0.0 <= p
  {
    var raw := step as real / total as real * 100.0;
    if raw <= 99.9 then raw else 99.9
  }

  /** What the loop carries from line to line and poll to poll: `last_step` and the progress values reported so far. */
  datatype Progress = Progress(lastStep: nat, reported: seq<real>)

  /** One line of output: a step number not below `last_step` becomes the new one and is reported. */
  function ScanLine(line: string, minimization: bool, total: int, s: Progress): Progress
    requires total != 0
  {
    match LineStep(line, minimization)
    case Some(v) => if v >= s.lastStep then Progress(v, s.reported + [Percent(v, total)]) else s
    case None => s
  }

  function ScanLines(lines: seq<string>, minimization: bool, total: int, s: Progress): Progress
    requires total != 0
  {
    if lines == [] then s
    else ScanLines(lines[1..], minimization, total, ScanLine(lines[0], minimization, total, s))
  }

  /** The state after the polls: the progress, how many polls completed, and whether an interrupt ended them. */
  datatype Watch = Watch(progress: Progress, polls: nat, interrupted: bool)

  /** The polling loop: the interrupt check comes first, then the whole output is scanned again, then the log callback runs. */
  function Supervise(ticks: seq<Tick>, minimization: bool, total: int, w: Watch): Watch
    requires total != 0
  {
    if ticks == [] then w
    else if ticks[0].interrupted then Watch(w.progress, w.polls, true)
    else
      var p := ScanLines(SplitLines(ticks[0].output), minimization, total, w.progress);
      Supervise(ticks[1..], minimization, total, Watch(p, w.polls + 1, w.interrupted))
  }

  /** How a supervised run ends: normally, or with the exception it raises. */
  datatype Outcome =
    | Completed
    | TerminatedByUser
    | ProcessFailed(code: int)
    | NstepsNotFound
    | NstepsUnreadable(error: MdpFile.MdpError)

  /**
   * Everything the caller observes: the command launched, if any, the values
   * passed to the progress callback, the number of log callbacks and the
   * outcome.
   */
  datatype Report = Report(launched: Option<string>, progress: seq<real>, logUpdates: nat, outcome: Outcome)

  /** The `nsteps` of the command's configuration file; a missing or zero value is `not total_nsteps`. */
  function TotalSteps(files: map<string, string>, command: string): (r: Result<int, Outcome>)
    ensures r.Ok? ==> r.value != 0
    ensures r.Err? ==> r.error.NstepsNotFound? || r.error.NstepsUnreadable?
    ensures TargetMdp(command).None? ==> r == Err(NstepsNotFound)
    ensures TargetMdp(command).Some? ==>
      var read := MdpFile.ReadNsteps(files, TargetMdp(command).value);
      (r.Ok? <==> read.Ok? && read.value.Some? && read.value.value != 0)
      && (r.Ok? ==> read == Ok(Some(r.value)))
      && (read.Err? <==> r.Err? && r.error.NstepsUnreadable?)
      && (read.Err? ==> r == Err(NstepsUnreadable(read.error)))
  {
    match TargetMdp(command)
    case None => Err(NstepsNotFound)
    case Some(path) =>
      match MdpFile.ReadNsteps(files, path)
      case Err(e) => Err(NstepsUnreadable(e))
      case Ok(None) => Err(NstepsNotFound)
      case Ok(Some(n)) => if n == 0 then Err(NstepsNotFound) else Ok(n)
  }

  /** The command mdrun is launched with. */
  function LaunchedCommand(command: string, stepName: string): string {
    WithLogFlag(command, LogFile(command, SafeName(stepName)))
  }

  const Initial: Watch := Watch(Progress(0, []), 0, false)

  /** `run_mdrun_with_progress`, with the process replaced by its polls and its exit code. */
  function Supervisor(files: map<string, string>, command: string, stepName: string, ticks: seq<Tick>, exitCode: int): Report {
    match TotalSteps(files, command)
    case Err(o) => Report(None, [], 0, o)
    case Ok(total) =>
      var cmd := LaunchedCommand(command, stepName);
      var w := Supervise(ticks, Contains(cmd, "step4.0"), total, Initial);
      if w.interrupted then Report(Some(cmd), w.progress.reported, w.polls, TerminatedByUser)
      else Report(Some(cmd), w.progress.reported + [100.0], w.polls, if exitCode != 0 then ProcessFailed(exitCode) else Completed)
  }

  // ---------------------------------------------------------------------
  // The supervisor as the source runs it
  // ---------------------------------------------------------------------

  /** The first `-deffnm` word with a word after it decides the log name. */
  lemma DeffnmValueAt(words: seq<string>, i: nat)
    requires i + 1 < |words| && words[i] == "-deffnm"
    requires forall j :: 0 <= j < i ==> words[j] != "-deffnm"
    ensures DeffnmValue(words) == Some(words[i + 1])
  {
    if i > 0 {
      DeffnmValueAt(words[1..], i - 1);
    }
  }

  /** The log file the command names with `-deffnm`, found by the source's scan of the words. */
  method FindLogFile(command: string, safeName: string) returns (logFile: string)
    ensures logFile == LogFile(command, safeName)
  {
    logFile := DefaultLogFile(safeName);
    if Contains(command, "-deffnm") {
      var parts := Words(command);
      var i := 0;
      while i < |parts|
        invariant 0 <= i <= |parts|
        invariant forall j :: 0 <= j < i ==> !(parts[j] == "-deffnm" && j + 1 < |parts|)
      {
        if parts[i] == "-deffnm" && i + 1 < |parts| {
          DeffnmValueAt(parts, i);
          logFile := parts[i + 1] + ".log";
          return;
        }
        i := i + 1;
      }
    }
  }

  /** The scan of one snapshot of the output, line by line. */
  method ScanOutput(lines: seq<string>, minimization: bool, total: int, lastStep0: nat, progress0: seq<real>)
    returns (lastStep: nat, progress: seq<real>)
    requires total != 0
    ensures Progress(lastStep, progress) == ScanLines(lines, minimization, total, Progress(lastStep0, progress0))
  {
    var current := lastStep0;
    lastStep, progress := lastStep0, progress0;
    var j := 0;
    while j < |lines|
      invariant 0 <= j <= |lines| && current == lastStep
      invariant ScanLines(lines, minimization, total, Progress(lastStep0, progress0))
        == ScanLines(lines[j..], minimization, total, Progress(lastStep, progress))
    {
      var line := lines[j];
      assert lines[j..][1..] == lines[j + 1..];
      if Contains(AsciiLower(line), "step") {
        var m := Search(line, minimization, 0);
        if m.Some? {
          var stepVal := m.value.value;
          if stepVal >= lastStep {
            current := stepVal;
            lastStep := stepVal;
            var percent := Percent(current, total);
            progress := progress + [percent];
          }
        }
      }
      j := j + 1;
    }
  }

  /** A poll that is not interrupted scans the output and moves on to the next poll. */
  lemma SuperviseStep(ticks: seq<Tick>, t: nat, minimization: bool, total: int, w: Watch)
    requires total != 0 && t < |ticks| && !ticks[t].interrupted
    ensures Supervise(ticks[t..], minimization, total, w)
      == Supervise(ticks[t + 1..], minimization, total,
                   Watch(ScanLines(SplitLines(ticks[t].output), minimization, total, w.progress), w.polls + 1, w.interrupted))
  {
    assert ticks[t..][0] == ticks[t] && ticks[t..][1..] == ticks[t + 1..];
  }

  /** `run_mdrun_with_progress`: polls until the process exits, reporting progress, then reports 100 and checks the exit code. */
  method RunMdrunWithProgress(dir: WorkDir, command: string, stepName: string, ticks: seq<Tick>, exitCode: int)
    returns (r: Report)
    ensures r == Supervisor(dir.files, command, stepName, ticks, exitCode)
  {
    var safeName := SafeName(stepName);
    var total: int;
    match TotalSteps(dir.files, command) {
      case Err(o) => return Report(None, [], 0, o);
      case Ok(n) => total := n;
    }
    var logFile := FindLogFile(command, safeName);
    var cmd := command;
    if !Contains(cmd, "-g") {
      cmd := cmd + " -g " + logFile;
    }
    var minimization := Contains(cmd, "step4.0");
    ghost var whole := Supervise(ticks, minimization, total, Initial);
    assert ticks[0..] == ticks;
    var lastStep: nat := 0;
    var progress: seq<real> := [];
    var polls := 0;
    var t := 0;
    while t < |ticks|
      invariant 0 <= t <= |ticks|
      invariant whole == Supervise(ticks[t..], minimization, total, Watch(Progress(lastStep, progress), polls, false))
    {
      if ticks[t].interrupted {
        assert ticks[t..][0] == ticks[t];
        return Report(Some(cmd), progress, polls, TerminatedByUser);
      }
      ghost var before := Watch(Progress(lastStep, progress), polls, false);
      SuperviseStep(ticks, t, minimization, total, before);
      lastStep, progress := ScanOutput(SplitLines(ticks[t].output), minimization, total, lastStep, progress);
      polls := polls + 1;
      assert Watch(Progress(lastStep, progress), polls, false)
        == Watch(ScanLines(SplitLines(ticks[t].output), minimization, total, before.progress), before.polls + 1, before.interrupted);
      t := t + 1;
    }
    assert ticks[t..] == [];
    progress := progress + [100.0];
    if exitCode != 0 {
      return Report(Some(cmd), progress, polls, ProcessFailed(exitCode));
    }
    return Report(Some(cmd), progress, polls, Completed);
  }

  // ---------------------------------------------------------------------
  // Properties of the progress reported while the process runs
  // ---------------------------------------------------------------------

  predicate Capped(xs: seq<real>) {
    forall k :: 0 <= k < |xs| ==> xs[k] <= 99.9
  }

  predicate NonDecreasing(xs: seq<real>) {
    forall k, j :: 0 <= k < j < |xs| ==> xs[k] <= xs[j]
  }

  /** A larger step never gives a smaller percentage, for a positive step count. */
  lemma PercentMonotone(a: nat, b: nat, total: int)
    requires 0 < total && a <= b
    ensures Percent(a, total) <= Percent(b, total)
  {
    var t := total as real;
    assert b as real / t - a as real / t == (b - a) as real / t;
    assert (b - a) as real / t >= 0.0;
  }

  /**
   * With a negative step count, such as the `-1` GROMACS uses for "no step
   * limit", which `if not total_nsteps` lets through, a larger step gives a
   * smaller percentage: the reported values fall.
   */
  lemma PercentFallsForNegativeTotal(a: nat, b: nat, total: int)
    requires total < 0 && a < b
    ensures Percent(b, total) == Percent(a, total) + (b - a) as real / total as real * 100.0
    ensures Percent(b, total) < Percent(a, total)
  {
    var t := total as real;
    assert b as real / t - a as real / t == (b - a) as real / t;
    assert (b - a) as real / t < 0.0;
  }

  /** The progress the loop carries: values never above 99.9, never decreasing, and none above the percentage of `last_step`. */
  predicate Climbing(p: Progress, total: int)
    requires total > 0
  {
    Capped(p.reported) && NonDecreasing(p.reported)
    && forall k :: 0 <= k < |p.reported| ==> 0.0 <= p.reported[k] <= Percent(p.lastStep, total)
  }

  /** Scanning lines only appends values, keeps `last_step` from falling, and keeps every value at most 99.9. */
  lemma {:induction false} ScanLinesExtends(lines: seq<string>, minimization: bool, total: int, s: Progress)
    requires total != 0
    ensures var r := ScanLines(lines, minimization, total, s);
      r.lastStep >= s.lastStep && |r.reported| >= |s.reported| && r.reported[..|s.reported|] == s.reported
      && (Capped(s.reported) ==> Capped(r.reported))
  {
    if lines != [] {
      var s' := ScanLine(lines[0], minimization, total, s);
      ScanLinesExtends(lines[1..], minimization, total, s');
      var r := ScanLines(lines[1..], minimization, total, s');
      assert r.reported[..|s'.reported|] == s'.reported;
      assert s'.reported[..|s.reported|] == s.reported;
      assert r.reported[..|s.reported|] == r.reported[..|s'.reported|][..|s.reported|];
    }
  }

  /** With a positive step count, scanning keeps the reported values climbing. */
  lemma {:induction false} ScanLinesClimbs(lines: seq<string>, minimization: bool, total: int, s: Progress)
    requires total > 0 && Climbing(s, total)
    ensures Climbing(ScanLines(lines, minimization, total, s), total)
  {
    if lines != [] {
      var s' := ScanLine(lines[0], minimization, total, s);
      assert Climbing(s', total) by {
        var found := LineStep(lines[0], minimization);
        if found.Some? && found.value >= s.lastStep {
          ReportClimbs(s, found.value, total);
        }
      }
      ScanLinesClimbs(lines[1..], minimization, total, s');
    }
  }

  /** Reporting a step at least `last_step` keeps the progress climbing. */
  lemma ReportClimbs(s: Progress, v: nat, total: int)
    requires total > 0 && Climbing(s, total) && v >= s.lastStep
    ensures Climbing(Progress(v, s.reported + [Percent(v, total)]), total)
  {
    var s' := Progress(v, s.reported + [Percent(v, total)]);
    PercentMonotone(s.lastStep, v, total);
    forall k | 0 <= k < |s'.reported|
      ensures 0.0 <= s'.reported[k] <= Percent(v, total)
    {
      if k < |s.reported| {
        assert s'.reported[k] == s.reported[k];
      }
    }
  }

  /** The polls only append progress values, keep `last_step` from falling, and keep every value at most 99.9. */
  lemma {:induction false} SuperviseExtends(ticks: seq<Tick>, minimization: bool, total: int, w: Watch)
    requires total != 0
    ensures var r := Supervise(ticks, minimization, total, w);
      r.progress.lastStep >= w.progress.lastStep
      && |r.progress.reported| >= |w.progress.reported| && r.progress.reported[..|w.progress.reported|] == w.progress.reported
      && (Capped(w.progress.reported) ==> Capped(r.progress.reported))
  {
    if ticks != [] && !ticks[0].interrupted {
      var p := ScanLines(SplitLines(ticks[0].output), minimization, total, w.progress);
      ScanLinesExtends(SplitLines(ticks[0].output), minimization, total, w.progress);
      var w' := Watch(p, w.polls + 1, w.interrupted);
      SuperviseExtends(ticks[1..], minimization, total, w');
      var r := Supervise(ticks[1..], minimization, total, w');
      assert Supervise(ticks, minimization, total, w) == r;
      assert r.progress.reported[..|w.progress.reported|] == r.progress.reported[..|p.reported|][..|w.progress.reported|];
    }
  }

  /** Across polls, with a positive step count, the values keep climbing. */
  lemma {:induction false} SuperviseClimbs(ticks: seq<Tick>, minimization: bool, total: int, w: Watch)
    requires total > 0 && Climbing(w.progress, total)
    ensures Climbing(Supervise(ticks, minimization, total, w).progress, total)
  {
    if ticks != [] && !ticks[0].interrupted {
      var p := ScanLines(SplitLines(ticks[0].output), minimization, total, w.progress);
      ScanLinesClimbs(SplitLines(ticks[0].output), minimization, total, w.progress);
      SuperviseClimbs(ticks[1..], minimization, total, Watch(p, w.polls + 1, w.interrupted));
    }
  }

  /** Without an interrupt every poll completes and calls the log callback once. */
  lemma {:induction false} EveryPollLogged(ticks: seq<Tick>, minimization: bool, total: int, w: Watch)
    requires total != 0 && !w.interrupted
    requires forall j :: 0 <= j < |ticks| ==> !ticks[j].interrupted
    ensures var r := Supervise(ticks, minimization, total, w);
      !r.interrupted && r.polls == w.polls + |ticks|
  {
    if ticks != [] {
      var p := ScanLines(SplitLines(ticks[0].output), minimization, total, w.progress);
      EveryPollLogged(ticks[1..], minimization, total, Watch(p, w.polls + 1, w.interrupted));
    }
  }

  /**
   * The interrupt check comes before the output is read: the first
   * interrupted poll ends the loop with exactly the state the earlier polls
   * left, whatever the output holds at that poll or later.
   */
  lemma {:induction false} InterruptStopsBeforeReading(ticks: seq<Tick>, k: nat, minimization: bool, total: int, w: Watch)
    requires total != 0 && !w.interrupted
    requires k < |ticks| && ticks[k].interrupted
    requires forall j :: 0 <= j < k ==> !ticks[j].interrupted
    ensures var before := Supervise(ticks[..k], minimization, total, w);
      Supervise(ticks, minimization, total, w) == Watch(before.progress, before.polls, true)
      && !before.interrupted && before.polls == w.polls + k
  {
    EveryPollLogged(ticks[..k], minimization, total, w);
    if k > 0 {
      var p := ScanLines(SplitLines(ticks[0].output), minimization, total, w.progress);
      var w' := Watch(p, w.polls + 1, w.interrupted);
      InterruptStopsBeforeReading(ticks[1..], k - 1, minimization, total, w');
      assert ticks[..k][1..] == ticks[1..][..k - 1];
    }
  }

  // ---------------------------------------------------------------------
  // Properties of a supervised run, as its caller observes it
  // ---------------------------------------------------------------------

  /** No process is started, and nothing is reported, unless the configuration yields a non-zero `nsteps`. */
  lemma NoLaunchWithoutNsteps(files: map<string, string>, command: string, stepName: string, ticks: seq<Tick>, exitCode: int)
    ensures var r := Supervisor(files, command, stepName, ticks, exitCode);
      (r.launched.None? <==> TotalSteps(files, command).Err?)
      && (r.launched.None? ==> r.progress == [] && r.logUpdates == 0 && r.outcome == TotalSteps(files, command).error)
      && (r.launched.Some? ==> r.launched.value == LaunchedCommand(command, stepName))
  {
  }

  /**
   * After the process exits, 100 is reported exactly once, as the last
   * value, even when the exit code then raises; an interrupted run never
   * reports it. Every earlier value is at most 99.9.
   */
  lemma HundredOnlyAtExit(files: map<string, string>, command: string, stepName: string, ticks: seq<Tick>, exitCode: int)
    ensures var r := Supervisor(files, command, stepName, ticks, exitCode);
      var running := if r.outcome.TerminatedByUser? || r.launched.None? then r.progress else r.progress[..|r.progress| - 1];
      Capped(running)
      && (r.launched.Some? && !r.outcome.TerminatedByUser? ==> |r.progress| >= 1 && r.progress[|r.progress| - 1] == 100.0)
  {
    var r := Supervisor(files, command, stepName, ticks, exitCode);
    if TotalSteps(files, command).Ok? {
      var total := TotalSteps(files, command).value;
      var cmd := LaunchedCommand(command, stepName);
      SuperviseExtends(ticks, Contains(cmd, "step4.0"), total, Initial);
      var w := Supervise(ticks, Contains(cmd, "step4.0"), total, Initial);
      if !w.interrupted {
        assert r.progress[..|r.progress| - 1] == w.progress.reported;
      }
    }
  }

  /** Once the process has exited, the exit code alone decides between success and `CalledProcessError`. */
  lemma ExitCodeDecides(files: map<string, string>, command: string, stepName: string, ticks: seq<Tick>, exitCode: int)
    requires forall j :: 0 <= j < |ticks| ==> !ticks[j].interrupted
    requires TotalSteps(files, command).Ok?
    ensures var r := Supervisor(files, command, stepName, ticks, exitCode);
      r.logUpdates == |ticks|
      && (exitCode == 0 ==> r.outcome == Completed)
      && (exitCode != 0 ==> r.outcome == ProcessFailed(exitCode))
  {
    var cmd := LaunchedCommand(command, stepName);
    EveryPollLogged(ticks, Contains(cmd, "step4.0"), TotalSteps(files, command).value, Initial);
  }

  /** With a positive step count the reported percentages are never negative and never decrease, the final 100 included. */
  lemma ProgressNeverDecreases(files: map<string, string>, command: string, stepName: string, ticks: seq<Tick>, exitCode: int)
    requires TotalSteps(files, command).Ok? && TotalSteps(files, command).value > 0
    ensures var progress := Supervisor(files, command, stepName, ticks, exitCode).progress;
      NonDecreasing(progress) && forall k :: 0 <= k < |progress| ==> 0.0 <= progress[k]
  {
    var total := TotalSteps(files, command).value;
    var cmd := LaunchedCommand(command, stepName);
    SuperviseClimbs(ticks, Contains(cmd, "step4.0"), total, Initial);
    var w := Supervise(ticks, Contains(cmd, "step4.0"), total, Initial);
    if !w.interrupted {
      HundredKeepsClimbing(w.progress.reported);
    }
  }

  lemma HundredKeepsClimbing(xs: seq<real>)
    requires Capped(xs) && NonDecreasing(xs) && forall k :: 0 <= k < |xs| ==> 0.0 <= xs[k]
    ensures NonDecreasing(xs + [100.0]) && forall k :: 0 <= k < |xs| + 1 ==> 0.0 <= (xs + [100.0])[k]
  {
  }

  /**
   * An interrupt at poll `k` ends the run as terminated by the user, with the
   * log callback called `k` times and the progress the first `k` polls
   * reported; what the output holds from poll `k` on is never read.
   */
  lemma InterruptedRun(files: map<string, string>, command: string, stepName: string, ticks: seq<Tick>, exitCode: int, k: nat)
    requires TotalSteps(files, command).Ok?
    requires k < |ticks| && ticks[k].interrupted && forall j :: 0 <= j < k ==> !ticks[j].interrupted
    ensures var r := Supervisor(files, command, stepName, ticks, exitCode);
      r.outcome == TerminatedByUser && r.logUpdates == k
      && r.progress + [100.0] == Supervisor(files, command, stepName, ticks[..k], 0).progress
  {
    var cmd := LaunchedCommand(command, stepName);
    var total := TotalSteps(files, command).value;
    InterruptStopsBeforeReading(ticks, k, Contains(cmd, "step4.0"), total, Initial);
  }

  // ---------------------------------------------------------------------
  // Properties of the file names and the launched command
  // ---------------------------------------------------------------------

  /** A name with no space and no colon is already safe, so making a name safe twice changes nothing more. */
  lemma {:induction false} SafeNameIdempotent(stepName: string)
    ensures ' ' !in stepName && ':' !in stepName ==> SafeName(stepName) == stepName
    ensures SafeName(SafeName(stepName)) == SafeName(stepName)
    decreases |stepName|
  {
    if stepName != [] {
      SafeNameIdempotent(stepName[1..]);
      SafeNameIdempotent(SafeName(stepName[1..]));
      var rest := SafeName(stepName[1..]);
      if stepName[0] == ' ' {
        assert ("_" + rest)[1..] == rest;
      } else if stepName[0] != ':' {
        assert ([stepName[0]] + rest)[1..] == rest;
        assert stepName == [stepName[0]] + stepName[1..];
      }
    }
  }

  /** `s.replace(" ", "_")`: every space becomes an underscore. */
  function ReplaceSpaces(s: string): (r: string)
    ensures |r| == |s|
  {
    seq(|s|, j requires 0 <= j < |s| => if s[j] == ' ' then '_' else s[j])
  }

  /** `s.replace(":", "")`: every colon is dropped, the other characters keep their order. */
  function RemoveColons(s: string): (r: string)
    ensures |r| == |s| - Count(s, ':')
  {
    if s == [] then [] else (if s[0] == ':' then [] else [s[0]]) + RemoveColons(s[1..])
  }

  /**
   * The one-pass safe name is the source's two `replace` calls in a row, and
   * it is shorter than the step name by exactly the number of colons.
   */
  lemma {:induction false} SafeNameTwoPasses(stepName: string)
    ensures SafeName(stepName) == RemoveColons(ReplaceSpaces(stepName))
    ensures |SafeName(stepName)| == |stepName| - Count(stepName, ':')
  {
    if stepName != [] {
      SafeNameTwoPasses(stepName[1..]);
      var spaced := ReplaceSpaces(stepName);
      assert spaced[1..] == ReplaceSpaces(stepName[1..]);
    }
  }

  /** `-g` is appended exactly when the command does not already contain the text `-g`. */
  lemma LogFlagRule(command: string, logFile: string)
    ensures WithLogFlag(command, logFile) == command <==> Contains(command, "-g")
    ensures !Contains(command, "-g") ==> WithLogFlag(command, logFile) == command + " -g " + logFile
  {
  }

  /** `-gpu_id` contains the text `-g`, so a command that names its GPUs gets no `-g` log flag. */
  lemma GpuIdSuppressesLogFlag(command: string, logFile: string)
    requires Contains(command, "-gpu_id")
    ensures WithLogFlag(command, logFile) == command
  {
    var i: nat :| i <= |command| && OccursAt(command, "-gpu_id", i);
    assert command[i..i + 2] == command[i..i + 7][..2];
    assert OccursAt(command, "-g", i);
  }

  lemma SliceOfSuffix(s: string, n: nat, a: nat, b: nat)
    requires n <= |s| && a <= b <= |s| - n
    ensures s[n..][a..b] == s[n + a..n + b]
  {
  }

  /** Every word of a command occurs in it as text. */
  lemma {:induction false} WordOccurs(s: string, k: nat) returns (i: nat)
    requires k < |Words(s)|
    ensures i <= |s| && OccursAt(s, Words(s)[k], i)
    decreases |s|
  {
    if IsShellSpace(s[0]) {
      assert Words(s) == Words(s[1..]);
      var i' := WordOccurs(s[1..], k);
      i := i' + 1;
      SliceOfSuffix(s, 1, i', i' + |Words(s)[k]|);
    } else {
      var n := WordLength(s);
      var rest := Words(s[n..]);
      assert Words(s) == [s[..n]] + rest;
      if k == 0 {
        i := 0;
      } else {
        assert Words(s)[k] == rest[k - 1];
        var i' := WordOccurs(s[n..], k - 1);
        i := i' + n;
        SliceOfSuffix(s, n, i', i' + |rest[k - 1]|);
      }
    }
  }

  /** The log file is named after the word that follows the first `-deffnm` word, when there is one. */
  lemma DeffnmNamesLogFile(command: string, safeName: string, i: nat)
    requires i + 1 < |Words(command)| && Words(command)[i] == "-deffnm"
    requires forall j :: 0 <= j < i ==> Words(command)[j] != "-deffnm"
    ensures LogFile(command, safeName) == Words(command)[i + 1] + ".log"
  {
    var at := WordOccurs(command, i);
    DeffnmValueAt(Words(command), i);
  }

  /** Without a `-deffnm` word followed by another word, the log file keeps its default name. */
  lemma DefaultLogFileName(command: string, safeName: string)
    requires forall j :: 0 <= j < |Words(command)| - 1 ==> Words(command)[j] != "-deffnm"
    ensures LogFile(command, safeName) == "progress_" + safeName + ".log"
  {
  }

  // ---------------------------------------------------------------------
  // The step patterns against the text they accept
  // ---------------------------------------------------------------------

  lemma SkipSpacesExact(line: string, k: nat, m: nat)
    requires k <= m <= |line| && AllSpaces(line[k..m]) && (m == |line| || !IsSpace(line[m]))
    ensures SkipSpaces(line, k) == m
    decreases m - k
  {
    if k < m {
      assert line[k] == line[k..m][0];
      assert line[k + 1..m] == line[k..m][1..];
      SkipSpacesExact(line, k + 1, m);
    }
  }

  lemma DigitRunExact(line: string, k: nat, n: nat)
    requires k + n <= |line| && (forall j :: k <= j < k + n ==> IsDigit(line[j]))
    requires k + n == |line| || !IsDigit(line[k + n])
    ensures DigitRun(line, k) == n
    decreases n
  {
    if n > 0 {
      DigitRunExact(line, k + 1, n - 1);
    }
  }

  /**
   * The text the minimization pattern accepts at `i`: `step` in any case
   * after a boundary, `=`, whitespace up to `m`, and the longest run of
   * digits from `m`, of length `n`.
   */
  predicate MinimizationText(line: string, i: nat, m: nat, n: nat) {
    Boundary(line, i) && StepWordAt(line, i) && i + 5 <= m && m + n <= |line| && n > 0
    && line[i + 4] == '=' && AllSpaces(line[i + 5..m])
    && (forall j :: m <= j < m + n ==> IsDigit(line[j]))
    && (m + n == |line| || !IsDigit(line[m + n]))
  }

  /** The minimization pattern matches exactly that text and captures the number its digits spell. */
  lemma MinimizationMatchesText(line: string, i: nat, m: nat, n: nat)
    requires MinimizationText(line, i, m, n)
    ensures MinimizationAt(line, i) == Some(DigitsValue(line[m..m + n]))
  {
    assert !IsSpace(line[m]);
    SkipSpacesExact(line, i + 5, m);
    DigitRunExact(line, m, n);
  }

  lemma MinimizationMatchHasText(line: string, i: nat) returns (m: nat, n: nat)
    requires MinimizationAt(line, i).Some?
    ensures MinimizationText(line, i, m, n) && MinimizationAt(line, i) == Some(DigitsValue(line[m..m + n]))
  {
    m := SkipSpaces(line, i + 5);
    n := DigitRun(line, m);
  }

  /** Wherever the minimization pattern matches, the other stages' pattern matches too, with the same number. */
  lemma MinimizationMatchIsStageMatch(line: string, i: nat)
    requires MinimizationAt(line, i).Some?
    ensures StageStepAt(line, i) == MinimizationAt(line, i)
  {
    assert !LetterLike(line[i + 4], 's') && !IsSpace(line[i + 4]);
    SkipSpacesExact(line, i + 4, i + 4);
  }

  /** `steps = 5`: the first alternative, with an optional `s` and whitespace around `=`. */
  lemma StageStepWithEquals(line: string, i: nat, e: nat, m: nat, n: nat)
    requires Boundary(line, i) && StepWordAt(line, i)
    requires AfterStep(line, i) <= e < m && m + n <= |line| && n > 0
    requires AllSpaces(line[AfterStep(line, i)..e]) && line[e] == '=' && AllSpaces(line[e + 1..m])
    requires (forall j :: m <= j < m + n ==> IsDigit(line[j])) && (m + n == |line| || !IsDigit(line[m + n]))
    ensures StageStepAt(line, i) == Some(DigitsValue(line[m..m + n]))
  {
    assert !IsSpace(line[e]);
    SkipSpacesExact(line, AfterStep(line, i), e);
    assert !IsSpace(line[m]);
    SkipSpacesExact(line, e + 1, m);
    NumberAtRun(line, m, n);
  }

  lemma NumberAtRun(line: string, m: nat, n: nat)
    requires m + n <= |line| && n > 0
    requires (forall j :: m <= j < m + n ==> IsDigit(line[j])) && (m + n == |line| || !IsDigit(line[m + n]))
    ensures NumberAt(line, m) == Some(DigitsValue(line[m..m + n]))
  {
    DigitRunExact(line, m, n);
  }

  /** `step 5`: the second alternative, whitespace and then the number. */
  lemma StageStepWithoutEquals(line: string, i: nat, m: nat, n: nat)
    requires Boundary(line, i) && StepWordAt(line, i)
    requires i + 4 <= m && m + n <= |line| && n > 0 && AllSpaces(line[i + 4..m])
      && (forall j :: m <= j < m + n ==> IsDigit(line[j])) && (m + n == |line| || !IsDigit(line[m + n]))
    ensures StageStepAt(line, i) == Some(DigitsValue(line[m..m + n]))
  {
    assert IsDigit(line[m]);
    NoPluralS(line, i, m);
    SkipSpacesExact(line, i + 4, m);
    assert SkipSpaces(line, AfterStep(line, i)) == m && line[m] != '=';
    StageStepFallback(line, i);
    NumberAtRun(line, m, n);
  }

  /** Spaces and then a digit after `step`: there is no `s` to take. */
  lemma NoPluralS(line: string, i: nat, m: nat)
    requires StepWordAt(line, i) && i + 4 <= m < |line| && AllSpaces(line[i + 4..m]) && IsDigit(line[m])
    ensures AfterStep(line, i) == i + 4
  {
    if m > i + 4 {
      assert IsSpace(line[i + 4]) by { assert line[i + 4] == line[i + 4..m][0]; }
    }
  }

  /** Without `=` after `steps?\s*`, the second alternative decides. */
  lemma StageStepFallback(line: string, i: nat)
    requires Boundary(line, i) && StepWordAt(line, i)
    requires var eq := SkipSpaces(line, AfterStep(line, i)); eq == |line| || line[eq] != '='
    ensures StageStepAt(line, i) == NumberAt(line, SkipSpaces(line, i + 4))
  {
  }

  /** `step` in ASCII letters passes the `"step" in line.lower()` test that comes before the pattern. */
  lemma AsciiStepPassesFilter(line: string, i: nat)
    requires StepWordAt(line, i) && line[i] != '\U{17F}'
    ensures Contains(AsciiLower(line), "step")
  {
    var low := AsciiLower(line);
    assert low[i..i + 4] == "step";
    assert OccursAt(low, "step", i);
  }

  /** Conversely, a line passes the `"step" in line.lower()` test only where it holds `step` in ASCII letters of either case. */
  lemma AsciiFilterFindsStep(line: string)
    requires Contains(AsciiLower(line), "step")
    ensures exists i: nat :: StepWordAt(line, i) && line[i] != '\U{17F}'
  {
    var low := AsciiLower(line);
    var i: nat :| i <= |low| && OccursAt(low, "step", i);
    assert low[i..i + 4] == "step";
    assert low[i] == 's' && low[i + 1] == 't' && low[i + 2] == 'e' && low[i + 3] == 'p';
    assert StepWordAt(line, i);
  }
}
