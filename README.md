# gmxauto pipeline core, modelled in Dafny

gmxauto drives a GROMACS molecular-dynamics pipeline from a desktop window.
A background worker runs six steps in the working directory:
- steps 1, 3 and 5 are `gmx grompp` preprocessing runs;
- steps 2, 4 and 6 are `gmx mdrun` runs for minimization, equilibration and production.

A supervisor watches each `mdrun`. It re-reads the run's output on every poll and reports the largest step number seen so far as a percentage of the configuration's `nsteps`.

This project models the text-level core of that pipeline. It covers:
- the `key = value` editing of `.mdp` configuration files;
- the composition of `mdrun` command lines for the CPU and GPU engines;
- the environment variables the worker sets up;
- the supervisor's progress extraction;
- the worker's stage machine, with its interrupt flag, checkpoint skipping, file checks and the single closing `finished` signal.

Files:

| file | module | models |
|---|---|---|
| `wrappers.dfy` | `Wrappers` | `Option`, `Result` and `Outcome`, for Python's `None` and exceptions |
| `text.dfy` | `Text` | the Python string operations the core uses: `strip`, `split`, `join`, `int()`, `str()`, `readlines`/`writelines`, `splitlines`, and `shlex.split` on unquoted commands |
| `files.dfy` | `Files` | the working directory, a map from file name to text |
| `mdp_file.dfy` | `MdpFile`, `MdpFileProperties` | `MDPFileManager` and the properties of reading and writing its files |
| `gpu_command.dfy` | `GpuCommand` | `GPUCommandBuilder.build` |
| `environment.dfy` | `Environment` | `EnvironmentManager` and `os.environ` |
| `command_runner.dfy` | `CommandRunner` | `CommandRunner.run_mdrun_with_progress` |
| `simulation.dfy` | `Simulation` | `SimulationWorker` and its signals |

The model draws the following boundaries:
- **Configuration files.** A file's text is held as a string. Reading it with `readlines` gives lines that all end in a line break except possibly the last, and `writelines` concatenates them back.
- **Processes.** A running `mdrun` is a sequence of polls followed by an exit code. Each poll says whether the interrupt check answered true and what the output file held at that moment.
- **`grompp` runs.** Each is its exit code, its standard error, the files it leaves behind, and whether `interrupt()` is called while it runs.
- **Signals.** The worker's `progress`, `log` and `finished` signals are recorded, in order, in the worker's `events` list.
- **Started commands.** Every command the worker starts is recorded in its `launched` list with the step it belongs to.

The worker is a `class` whose methods change its `interrupted` flag and its two lists, and the working directory they are given. `MdrunWithProgress`, `Preprocess` and the other step methods follow `run` step by step. Each method states its new state in full, or bounds it where a later method only needs that.

## Model

| member | source | states |
|---|---|---|
| Text.LeadingSpacesSpec | mdp_file_manager.py:16 | `strip` removes exactly the maximal run of whitespace (Python's `isspace`) at the start of a line |
| Text.TrailingSpacesSpec | mdp_file_manager.py:37 | `rstrip` removes exactly the maximal run of whitespace at the end |
| Text.StripEnds | mdp_file_manager.py:18 | a stripped text neither starts nor ends with whitespace |
| Text.StripPadded | mdp_file_manager.py:18 | stripping a word padded with whitespace gives the word back |
| Text.SplitFirst | mdp_file_manager.py:17 | `split('=', 1)` unpacked into two names fails exactly when there is no `=`; otherwise the text is the first part, `=` and the rest, and the first part holds no `=` |
| Text.IntToString | mdp_file_manager.py:37 | `str(v)` reads back as `v` with `int()`, and has no whitespace at either end |
| Text.NatToString | environment_manager.py:8 | `str(i)` of a natural number is decimal digits whose value is `i` |
| Text.JoinWithCount | environment_manager.py:8 | joining separator-free parts puts exactly one separator between each two of them |
| Text.SplitJoin | environment_manager.py:8 | splitting such a join on the separator gives the parts back |
| Text.Words | command_runner.py:37 | `shlex.split` of an unquoted command gives non-empty words without whitespace |
| Text.WordsOfJoin | command_runner.py:37 | splitting non-empty, space-free words joined by single spaces gives back exactly those words |
| Text.Lines | mdp_file_manager.py:30-31 | `readlines` gives lines of the shape described above, and concatenated they give back the text |
| Text.LinesOfConcat | mdp_file_manager.py:45-46 | reading back what `writelines` wrote gives the same lines, when they have that shape |
| Text.SplitLines | command_runner.py:67 | no line from `splitlines` holds a line boundary, and there are no more lines than characters |
| Text.SplitLinesKeepsText | command_runner.py:67 | the lines of `splitlines`, put back together, are the text with its line boundaries removed and nothing else lost |
| MdpFile.FindKeyLine | mdp_file_manager.py:15-16 | the index of the first line whose stripped text starts with the key, with no such line before it; `None` exactly when no line matches |
| MdpFile.FindKeyLineAt | mdp_file_manager.py:34-35 | a matching line with no match before it is the one the loops stop at |
| MdpFile.FirstKeyLineIndex | mdp_file_manager.py:34-39 | the writers' `for … break` scan stops at the first key line, or runs off the end exactly when there is none |
| MdpFile.ReplaceKeyLine | mdp_file_manager.py:27-46 | a missing file is left alone; otherwise the file becomes the lines with the first key line rewritten or a key line appended, or it stays unchanged with the `ValueError` of a key line without `=` |
| MdpFile.WriteNsteps | mdp_file_manager.py:25-46 | `write_nsteps` is that rewrite for `nsteps`, padded with 18 spaces before `=` |
| MdpFile.ExtractAndReplaceNstlist | mdp_file_manager.py:68-92 | a missing file gives 300 and no write; otherwise `nstlist` is forced to the argument (17 spaces) and the argument is returned, whatever the old value |
| MdpFile.KeyLineShape | mdp_file_manager.py:16 | a key line is leading whitespace followed by the key, a prefix match that also accepts `nstepsX` |
| MdpFile.KeyPartShape | mdp_file_manager.py:36 | the text before the first `=` of a key line starts with the line's indentation and the key |
| MdpFile.WrittenLineShape | mdp_file_manager.py:37 | a rewritten line is again a key line, with a single line break at its end |
| MdpFile.WrittenLineSplit | mdp_file_manager.py:37 | the first `=` of a written line is the one the writer put after the padding |
| MdpFile.ReadWrittenValue | mdp_file_manager.py:17-18 | the reader's `split`/`int` finds the written value in a written line |
| MdpFile.RewrittenKeyPart | mdp_file_manager.py:36-37 | the key part a rewrite keeps, right-stripped, still starts with the indentation and the key |
| MdpFile.RewriteFoundShape | mdp_file_manager.py:33-39 | rewriting in place keeps the line count and every other line, and the rewritten line is still a key line that reads back as `v` |
| MdpFile.RewriteAppendShape | mdp_file_manager.py:41-42 | without a key line exactly one line `key … = v\n` is appended and every existing line is kept |
| MdpFileProperties.KeysAreValid | mdp_file_manager.py:16 | `nsteps` and `nstlist` are keys the writers can use |
| MdpFileProperties.LastLineEnding | mdp_file_manager.py:31 | the last line `readlines` gives ends in a line break exactly when the text does |
| MdpFileProperties.RewriteWellFormed | mdp_file_manager.py:33-42 | a successful rewrite keeps the `readlines` shape, and the new key line reads back as `v` |
| MdpFileProperties.WriteKeepsLines | mdp_file_manager.py:30-46 | reading the written file gives back exactly the rewritten lines |
| MdpFileProperties.WriteThenReadNsteps | mdp_file_manager.py:9-46 | `write_nsteps(v)` then `read_nsteps` returns `v`, for a file that has an nsteps line or ends in a line break |
| MdpFileProperties.RewriteWrittenLine | mdp_file_manager.py:36-37 | a key line the writer produced is rewritten to itself |
| MdpFileProperties.RewriteFoundIdempotent | mdp_file_manager.py:33-39 | after a rewrite in place, rewriting again with the same value changes nothing |
| MdpFileProperties.RewriteAppendIdempotent | mdp_file_manager.py:41-42 | after an append, rewriting again with the same value changes nothing |
| MdpFileProperties.WriteIdempotent | mdp_file_manager.py:25-46 | writing the same value twice leaves the file as the first write left it |
| MdpFileProperties.GluedAppendIsLost | mdp_file_manager.py:42-46 | with no final line break, the appended key line is glued onto the last line, and reading the file back finds no key line |
| MdpFileProperties.GluedNstepsExample | mdp_file_manager.py:42-46 | for example, `nsteps` written to a file holding only `dt = 0.002` cannot be read back |
| MdpFileProperties.WriteFailsLikeRead | mdp_file_manager.py:17-36 | a rewrite fails exactly on a first key line without `=`, and the reader fails there with the same error |
| MdpFileProperties.ReadIgnoresLaterLines | mdp_file_manager.py:15-20 | only the first key line is read; later lines, key lines included, do not change the result |
| GpuCommand.TruncDivRemainder | gpu_command_builder.py:22-24 | `int(num_cores / num_gpus)` truncates toward zero: the remainder is smaller than the divisor and has the dividend's sign |
| GpuCommand.Build | gpu_command_builder.py:7-30 | `build` fails, with `ZeroDivisionError`, exactly for a GPU engine given 0 GPUs |
| GpuCommand.SingleGpuLayout | gpu_command_builder.py:14-20 | the three single-GPU branches follow one layout: ids, offload, pinning, FFT offload |
| GpuCommand.MultiGpuLayout | gpu_command_builder.py:21-28 | the three multi-GPU branches follow the same layout, with the decomposition flags |
| GpuCommand.CpuCommand | gpu_command_builder.py:9-11 | the CPU engine adds only `-nt {num_cores}` and never `-gpu_id`, whatever the GPU count |
| GpuCommand.GpuCommandLayout | gpu_command_builder.py:12-28 | a GPU engine given at least one GPU adds the layout's flags, the multi-GPU ones exactly when the count is not 1 |
| GpuCommand.GpuIdsOnlyForGpuEngine | gpu_command_builder.py:9-28 | `-gpu_id {ids}` is added exactly for a non-CPU engine, and first |
| GpuCommand.DecompositionOnlyForSeveralGpus | gpu_command_builder.py:21-28 | `-npme 1 -ntmpi n -ntomp t` is added exactly for a GPU engine with a count other than 1 |
| GpuCommand.OffloadByStage | gpu_command_builder.py:15-28 | the first stage marker decides the offload: `-bonded gpu` only for `step4.1`, `-pmefft gpu` only without a marker, `-nb gpu` for minimization only with several GPUs |
| GpuCommand.BuildStripped | gpu_command_builder.py:11-28 | the built command has no whitespace at either end |
| GpuCommand.ExtraFlagsLast | gpu_command_builder.py:11-28 | the command is the base, a space and the engine's flags, and only then the extra flags |
| GpuCommand.ThreadsFitCores | gpu_command_builder.py:22-28 | with positive counts, the ranks' threads never exceed the cores, and one more thread per rank would |
| Environment.Decimals | environment_manager.py:8 | `str(i) for i in range(n)` has `n` entries; each is a non-empty run of decimal digits with no comma, and `int()` reads entry `i` back as `i` |
| Environment.EnvironmentManager.constructor | environment_manager.py:5-8 | keeps the GPU count and engine and builds the GPU id list |
| Environment.EnvironmentManager.Setup | environment_manager.py:11-37 | `setup` leaves exactly the environment `AfterSetup` describes |
| Environment.GpuKeysDistinct | environment_manager.py:30-32 | the nine GPU variables are distinct |
| Environment.CudaAssignments | environment_manager.py:17-25 | the nine assignments of a CUDA run give every GPU variable its value |
| Environment.EnvironmentManager.GpuIdsShape | environment_manager.py:8 | no GPUs give `""`; `n` GPUs give `0..n-1` with exactly `n-1` commas, each part reading back as its index |
| Environment.EnvironmentManager.PathKeysNotGpuKeys | environment_manager.py:30-37 | `PATH` and `GMXDATA` are not among the GPU variables |
| Environment.EnvironmentManager.CudaSetupSetsGpuKeys | environment_manager.py:14-25 | the CUDA engine sets `CUDA_VISIBLE_DEVICES` to the id list and the eight `GMX_*` variables to their literal values |
| Environment.EnvironmentManager.OtherSetupClearsGpuKeys | environment_manager.py:27-33 | any other engine leaves none of the nine variables, and removing an absent one changes nothing |
| Environment.EnvironmentManager.SetupChangesOnlyListedKeys | environment_manager.py:11-37 | `PATH` becomes the `bin` directory, the path separator and the old `PATH` (empty when unset), `GMXDATA` the `share/gromacs` directory, and no other variable changes |
| Environment.EnvironmentManager.OldPathIsSuffix | environment_manager.py:36 | the old `PATH` survives as a suffix of the new one |
| Environment.EnvironmentManager.SetupTwiceGrowsPath | environment_manager.py:36 | `setup` is not idempotent: a second call prepends the `bin` directory once more |
| CommandRunner.SafeName | command_runner.py:21 | the safe name holds no space and no colon |
| CommandRunner.SafeNameTwoPasses | command_runner.py:21 | the safe name is the two `replace` calls in a row, and is shorter than the step name by the number of colons |
| CommandRunner.SafeNameIdempotent | command_runner.py:21 | a name with no space or colon is already safe, so making a name safe twice changes nothing more |
| CommandRunner.DeffnmValue | command_runner.py:38-42 | there is a log name from `-deffnm` exactly when some `-deffnm` word has a word after it |
| CommandRunner.DeffnmValueAt | command_runner.py:38-42 | the first such `-deffnm` word decides the name |
| CommandRunner.FindLogFile | command_runner.py:22-42 | the `for … break` scan of the words finds the log file the command names |
| CommandRunner.DeffnmNamesLogFile | command_runner.py:36-41 | the log file is the word after the first `-deffnm` plus `.log` |
| CommandRunner.DefaultLogFileName | command_runner.py:22 | without such a word, the log file is `progress_{safe_name}.log` |
| CommandRunner.LogFlagRule | command_runner.py:44-45 | `-g {log}` is appended exactly when the text `-g` does not occur in the command |
| CommandRunner.GpuIdSuppressesLogFlag | command_runner.py:44-45 | a command holding `-gpu_id` gets no `-g` flag |
| CommandRunner.WordOccurs | command_runner.py:36-37 | every word of a command occurs in it as text |
| CommandRunner.TargetMdp | command_runner.py:25-31 | the first matching marker picks the file: `step4.0` the minimization file, else `step4.1` the equilibration file, else `step5_1` or `step5_production` the production file, else none |
| CommandRunner.TotalSteps | command_runner.py:25-34 | a command with no stage marker is the `RuntimeError`; otherwise the result is the `nsteps` that `read_nsteps` gives for the marker's file exactly when that value is present and not 0, the reader's `ValueError` exactly when it raises, and the `RuntimeError` for a missing or zero value |
| CommandRunner.SkipSpaces | command_runner.py:70-72 | `\s*` stops at the end of the run of whitespace |
| CommandRunner.DigitRun | command_runner.py:70-72 | `\d+` is greedy: the whole run of digits |
| CommandRunner.Leftmost | command_runner.py:70-72 | the scan `re.search` makes: the first position at or after the start where an attempt succeeds, with every earlier attempt failed, or none when every attempt fails |
| CommandRunner.Search | command_runner.py:70-72 | `re.search` finds the leftmost position where the pattern matches, and `None` when it matches nowhere |
| CommandRunner.AsciiLower | command_runner.py:68 | each character of the lowered text is `s`, `t`, `e` or `p` exactly when the original is that letter in either ASCII case; no upper-case ASCII letter is left; every other non-upper-case character is kept |
| CommandRunner.MinimizationMatchesText | command_runner.py:70-75 | the minimization pattern matches `step=` in any case after a boundary, then whitespace, then the digits it captures |
| CommandRunner.MinimizationMatchHasText | command_runner.py:70-75 | every minimization match has that shape |
| CommandRunner.MinimizationMatchIsStageMatch | command_runner.py:70-72 | wherever the minimization pattern matches, the other stages' pattern matches with the same number |
| CommandRunner.StageStepWithEquals | command_runner.py:72-75 | `steps? = n` is accepted by the first alternative |
| CommandRunner.StageStepWithoutEquals | command_runner.py:72-75 | `step n` is accepted by the second alternative |
| CommandRunner.AsciiStepPassesFilter | command_runner.py:68 | `step` in ASCII letters of any case passes the `"step" in line.lower()` test |
| CommandRunner.AsciiFilterFindsStep | command_runner.py:68 | conversely, a line passes that test only if it holds `step` in ASCII letters of some case |
| CommandRunner.Percent | command_runner.py:80 | a percentage never exceeds 99.9, and is never negative for a positive count |
| CommandRunner.PercentMonotone | command_runner.py:76-80 | with a positive nsteps, a larger step never gives a smaller percentage |
| CommandRunner.PercentFallsForNegativeTotal | command_runner.py:76-80 | with a negative nsteps, which `if not total_nsteps` lets through, a larger step gives a smaller percentage, lower by exactly the step difference over nsteps, times 100 |
| CommandRunner.ScanOutput | command_runner.py:65-84 | the line loop computes what the scan of one snapshot specifies |
| CommandRunner.SuperviseStep | command_runner.py:59-86 | a poll without an interrupt scans the output and goes on to the next poll |
| CommandRunner.RunMdrunWithProgress | command_runner.py:19-90 | the supervisor's result is the launched command, the reported values, the log callbacks and the outcome that `Supervisor` specifies |
| CommandRunner.ScanLinesExtends | command_runner.py:76-81 | scanning only appends values, keeps `last_step` from falling, and keeps values at most 99.9 |
| CommandRunner.ScanLinesClimbs | command_runner.py:76-81 | with a positive count, the values stay in 0..99.9, never decrease, and none exceeds the percentage of `last_step` |
| CommandRunner.SuperviseExtends | command_runner.py:57-86 | across polls, values are only appended and `last_step` never falls |
| CommandRunner.SuperviseClimbs | command_runner.py:57-86 | with a positive nsteps, across polls the values stay in 0..99.9 and keep climbing |
| CommandRunner.EveryPollLogged | command_runner.py:85 | without an interrupt, the log callback runs once per poll |
| CommandRunner.InterruptStopsBeforeReading | command_runner.py:59-66 | the first interrupted poll ends the loop with the state the earlier polls left, whatever the output holds then or later |
| CommandRunner.NoLaunchWithoutNsteps | command_runner.py:33-34 | without a non-zero `nsteps`, no process is started and nothing is reported |
| CommandRunner.HundredOnlyAtExit | command_runner.py:80-88 | after the process exits, 100 is reported exactly once, last, even when the exit code then raises; an interrupted run never reports it |
| CommandRunner.ExitCodeDecides | command_runner.py:88-90 | once the process has exited, the exit code alone decides between success and `CalledProcessError` |
| CommandRunner.ProgressNeverDecreases | command_runner.py:76-88 | with a positive count, the reported values are never negative and never decrease, the final 100 included |
| CommandRunner.InterruptedRun | command_runner.py:59-85 | an interrupt at poll `k` ends the run as terminated by the user, after `k` log callbacks and the first `k` polls' values |
| Simulation.SkipAll | simulation_worker.py:127-137 | the skip loop's emissions hold no `finished` |
| Simulation.Polled | simulation_worker.py:88-89 | `check_interrupted` answers true at every poll once the flag is set |
| Simulation.CancelPoint | simulation_worker.py:127-132 | the skip loop stops at one of the five steps, or runs through all five |
| Simulation.Truncate | simulation_worker.py:82-83 | `int(val)` truncates toward zero |
| Simulation.Forwarded | simulation_worker.py:82-83 | each reported value is forwarded once, in order, as `progress(int(val), step)` |
| Simulation.StepSixIsProduction | simulation_worker.py:120-126 | step 6 is none of the skipped steps |
| Simulation.ProductionLaunches | simulation_worker.py:188-223 | the step 6 launches of a run are its production command only |
| Simulation.SimulationWorker.constructor | simulation_worker.py:20-30 | keeps the settings, with the flag clear and nothing emitted or started |
| Simulation.SimulationWorker.Interrupt | simulation_worker.py:32-33 | `interrupt` sets the flag and changes nothing else, so repeating it is harmless |
| Simulation.SimulationWorker.CheckFileExists | simulation_worker.py:56-63 | success and its log exactly when the file exists, otherwise an error log and `FileNotFoundError` |
| Simulation.SimulationWorker.RunCommand | simulation_worker.py:65-77 | the command is always logged; with the flag set, a warning and a `RuntimeError` and nothing started; otherwise the command runs, and its exit code decides success or the failure log and `CalledProcessError` |
| Simulation.SimulationWorker.ForwardProgress | simulation_worker.py:82-83 | the callback emits exactly the forwarded values |
| Simulation.SimulationWorker.MdrunWithProgress | simulation_worker.py:79-103 | the command log, the forwarded values, then 100 and a success log, or the logged failure re-raised; a process is started exactly when the supervisor launches one |
| Simulation.SimulationWorker.Relay | simulation_worker.py:91-103 | from any report the supervisor can give, the wrapper logs the command, forwards each value, then logs success or the failure and raises it again; without a launched process nothing is started and the result is a failure |
| Simulation.SimulationWorker.CalculateNsteps | simulation_worker.py:35-54 | an unknown unit logs an error and raises `ValueError`; then a step count `int(total_ps / timestep_ps)` cannot form raises with no log and no write; otherwise `nsteps` is rewritten only when the stored value is absent or differs, and one info log follows |
| Simulation.SimulationWorker.Preprocess | simulation_worker.py:179-186 | a preprocessing step passes exactly when the flag was clear, the tool succeeded and its file exists, and then ends with progress 100 |
| Simulation.SimulationWorker.MdrunStep | simulation_worker.py:176-177 | an mdrun step passes only when its command was launched and its file exists |
| Simulation.SimulationWorker.Simulate | simulation_worker.py:169-177 | the cancel check, the built command (or the division error), then the supervised run and its file check |
| Simulation.SimulationWorker.ConfigureProduction | simulation_worker.py:191-193 | a time step `float()` rejects raises before any write or log; a step count that cannot form makes it fail; on success `nstlist` is 300 and the step count is the computed one; no file other than the production configuration appears, disappears or changes its text |
| Simulation.SimulationWorker.Production | simulation_worker.py:188-225 | step 6 starts only the production command for the checkpoint's presence, and passes only with `step5_1.gro` present |
| Simulation.SimulationWorker.SkipPreparedSteps | simulation_worker.py:127-138 | the steps before the flag is seen are reported done, with warnings for missing files; a seen flag adds a warning and `finished`, and nothing is started |
| Simulation.SimulationWorker.Stage | simulation_worker.py:140-177 | a preprocessing step and its mdrun step, the second started only after the first passed |
| Simulation.SimulationWorker.Equilibrate | simulation_worker.py:160-186 | steps 3 to 5 start at most their own commands, and on success exactly those three |
| Simulation.SimulationWorker.Prepare | simulation_worker.py:140-186 | steps 1 to 5 run in order, each only after the previous passed; on success exactly their five commands were started |
| Simulation.SimulationWorker.Resume | simulation_worker.py:116-138 | with a checkpoint the notice and the skip loop only extend the log, and nothing is started; a cancelled loop ends the log with `finished`, and a flag set beforehand always cancels |
| Simulation.SimulationWorker.ReportSkipped | simulation_worker.py:133-137 | one skipped step emits progress 100 and its success log, plus a warning exactly when its file is missing, and changes nothing else |
| Simulation.SimulationWorker.PrepareOrSkip | simulation_worker.py:115-186 | with a checkpoint nothing is started and no file changes; a set flag stops the run with nothing started |
| Simulation.SimulationWorker.Steps | simulation_worker.py:115-234 | `finished` is emitted once, last; only steps 1 to 6 are started, only step 6 with a checkpoint, and step 6 is the production command |
| Simulation.SimulationWorker.Finish | simulation_worker.py:188-234 | step 6, then `finished`; when production passed, the log before `finished` is the completion message, step 6's command was launched and `step5_1.gro` exists; when it failed, that log is the error log of its failure; a cancelled run fails as cancelled and launches nothing |
| Simulation.SimulationWorker.Run | simulation_worker.py:105-234 | `run` emits `finished` exactly once, as its last signal, on the cancel, success and error paths, and leaves the environment `setup` describes |
| Simulation.ProductionBaseLayout | simulation_worker.py:195-222 | the production command has `-cpi step5_1.cpt -append` exactly with a checkpoint and `-nb gpu -bonded gpu` exactly for a non-CPU engine |
| Simulation.TruncateOrder | simulation_worker.py:82-83 | truncation keeps order, shows 99.9 as 99, and shows 100 as 100 |
| Simulation.ForwardedProgress | simulation_worker.py:82-93 | with a positive nsteps, what the bar shows never goes down, stays at 99 or below while the process runs, and reaches 100 only at a normal exit |
| Simulation.ShownProgressFallsForNegativeTotal | simulation_worker.py:82-83 | with a negative nsteps, the bar shows a smaller whole number for a later step once the steps differ by at least nsteps/100 in size: for nsteps -1, step 0 shows 0 and step 5 shows -500 |
| Simulation.SkipReportsEach | simulation_worker.py:133-137 | each skipped step gets progress 100 and a success log, and a warning when its file is missing |
| Simulation.SkipWarnsOnlyMissing | simulation_worker.py:135-137 | every warning the skip loop emits is the warning of a step whose file is missing |
| Simulation.SkippedWarnExactly | simulation_worker.py:120-137 | for the five listed steps, a step's warning is emitted exactly when its file is missing |
| Simulation.EngineChecksDisagree | simulation_worker.py:111-222 | an engine that is neither `CPU` nor `CUDA` gets `-gpu_id` in its command while `CUDA_VISIBLE_DEVICES` is removed from the environment |

## Left out

- `extract_dt` (mdp_file_manager.py:50-65): its regex and `float()` parsing are floating point. Its outcome reaches the worker as an input: the time step as text, for the log line, or the matched text `float()` rejects, which ends the run with `ValueError`.
- The duration arithmetic of `calculate_nsteps` (simulation_worker.py:36-45) is floating point. Its outcome is an input: the step count, or the exception `int(total_ps / timestep_ps)` raises (a zero time step, an infinite or a NaN quotient). The unit check, that exception and the rewrite rule are modelled.
- `CommandRunner.run_command` (command_runner.py:12-16): `subprocess.run` is an input run with its exit code, standard error and created files.
- `Popen`, `poll`, `terminate` and `time.sleep` are replaced by the sequence of polls and the exit code.
- The supervisor's output file (command_runner.py:23, 47) is not a file of the working directory: each poll carries the text it holds.
- `os.chdir` is only logged. The working directory is the map the methods receive.
- Windows process flags (`CREATE_NO_WINDOW`) and the platform's path rules: `os.path.join` follows POSIX rules, and the separators and the program's directory are parameters.
- `shlex.split` quoting, escapes and comments are not modelled: `Words` splits on whitespace, which is exact for the repository's unquoted commands.
- GpuCommand.TruncDiv: `int(num_cores / num_gpus)` goes through a float quotient. The model truncates the exact quotient, which differs only for core counts beyond float precision.
- CommandRunner.Percent: the exact quotient stands for the float `(current / total_nsteps) * 100` of command_runner.py:80. Float rounding can land just below an integer, so the value `Simulation.Forwarded` passes through `int()` can be one lower in the source: 29 of 100 steps shows 28 there and 29 here. The bounds and the monotonicity proved hold for both, since float rounding is monotone.
- Simulation.Describe: the text of an `int()` or `float()` error quotes the offending text between single quotes. Python uses its `repr`, which switches to double quotes when the text holds a single quote, escapes control characters and, for `int()`, cuts the text at 200 characters.
- Python's `int()` also accepts Unicode digits and underscores, and `\d` matches Unicode digits. The model accepts ASCII digits only, with an optional sign.
- Logging through `logging` is left out. Qt thread-pool delivery is left out: signals are an ordered list, and interrupt arrivals are inputs.
- The `step_finished` signal is never emitted by the worker and is not modelled.
- The supervisor's progress log line with its `:.2f` formatting is a logger call and is left out.
- The message of `CalledProcessError` for a negative exit code names a signal. The model uses the exit-status form for every code.
- Simulation.Launch: records the command the worker hands to the supervisor. The `-g` log flag the supervisor may append is not part of the record; `CommandRunner.LaunchedCommand` gives it.
- MdpFileProperties.WriteThenReadNsteps: requires that the file has an nsteps line or ends in a line break, because otherwise the round trip fails (see GluedAppendIsLost).
- CommandRunner.PercentMonotone: proved only for a positive nsteps. A negative nsteps, such as GROMACS' `-1` for no step limit, passes the `if not total_nsteps` test of command_runner.py:33, and then the percentage falls as the step grows (PercentFallsForNegativeTotal).
- CommandRunner.SuperviseClimbs: proved only for a positive nsteps, for the same reason: with a negative one the reported values fall.
- Simulation.ForwardedProgress: proved only for a positive nsteps. With a negative one the bar goes down (ShownProgressFallsForNegativeTotal).
- Simulation.SimulationWorker.Steps: states which commands start and that `finished` comes once, last. It states the order of the other signals only through the step methods it calls.
- The GUI (gui_main.py) and main.py are not part of this model.
