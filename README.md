# crs-copilot-cli: the patching controller, modelled in Dafny

crs-copilot-cli runs one automated vulnerability-patching session for a fuzzed target. It fetches
the proof-of-vulnerability (POV) inputs and reproduces each crash on the unpatched build through the
builder sidecar. It resets the project's git workspace and hands every crash report to one session
of the GitHub Copilot CLI agent. Then it resets the workspace again and checks whether a `*.diff`
patch appeared. This project models that controller (`patcher.py`) and the Copilot CLI agent's
setup, session assembly and process supervision (`agents/copilot_cli.py`).

The model works on values. Everything the outside world does is an oracle value:
- libCRS (fetch, download, `run_pov`, service lookup);
- git and the filesystem listings;
- the agent process and its exit status;
- the names left in `/patches`.

The controller's effects are recorded in order as an event trace. This lets the ordering properties
be stated about the trace, for example "the two resets bracket the single agent run".

Modules, one file each:
- `Text` (`text.dfy`): string helpers, decimal rendering, `str.join`.
- `Paths` (`paths.dfy`): POSIX paths as component lists, `PurePath.stem`, and Python's path
  ordering with a `sorted` that is proved to be the unique sorted permutation.
- `CrashReproduction` (`crash_reproduction.dfy`): `reproduce_crash` and its tail truncation.
- `Workspace` (`workspace.dfy`): `_reset_source` and `setup_source`.
- `CopilotCli` (`copilot_cli.dfy`): the `AGENT_TIMEOUT` parse, `setup`, and `run`. In `run`, the
  supervisor is a state machine (spawn → wait → SIGTERM to the group → grace → SIGKILL → wait).
  Every run the supervisor completes is proved to be accepted by that machine.
- `Patcher` (`patcher.py`'s `process_povs` and `main`, in `patcher.dfy`): the POV filter and sort,
  the session, and `main`'s exit decisions.

Where the design description and the code disagree, the model follows the code:
- An existing but empty `pov_stderr.log` yields the empty report `""`, not a "no output" placeholder.
- The crash report holds only the sidecar's stderr log, not its exit code or stdout.
- `run`'s result ignores the agent's exit code entirely.

## Model

| member | source | states |
|---|---|---|
| CrashReproduction.TruncateTail | patcher.py:136-139 | A log of at most 16384 characters is kept unchanged. A longer one becomes the marker `[...truncated...]\n` followed by exactly its last 16384 characters, so the result is never longer than 16384 plus the marker. |
| CrashReproduction.ReproduceCrash | patcher.py:122-143 | With no harness: no sidecar request and exactly "No harness configured". Otherwise exactly one `run_pov` request for this POV, harness and builder, on build "base", with response dir `/work/pov-{stem}/reproduce`. The report is "Error reproducing crash: " + message when `run_pov` or the log read raised, "No crash output captured" when the log is missing, else the truncated log. Every outcome is a report: nothing is raised. |
| CrashReproduction.TruncateKeepsTail | patcher.py:137-138 | Any tail of the log of at most 16384 characters is also a tail of the report. |
| CrashReproduction.TruncateIdempotent | patcher.py:137-138 | Truncating a report again leaves it unchanged. |
| CrashReproduction.CapturedLogUnchangedIff | patcher.py:135-139 | A captured log is reported verbatim iff it fits in 16384 characters or already has the truncated shape. |
| Paths.Stem | patcher.py:127 | `PurePath.stem` is a prefix of the name. It differs from the name exactly when the name has a last '.' that is neither its first nor its last character, and then it stops just before that '.'. |
| CrashReproduction.ResponseDir | patcher.py:127 | The response directory is `/work/pov-<stem>/reproduce`. |
| CrashReproduction.ResponseDirSharedIff | patcher.py:127 | Two POVs share a response directory exactly when their names have the same stem, for example `a.bin` and `a.txt`, or two `a.bin` in different subdirectories. |
| Paths.PathLeTotal | patcher.py:261 | Python's path ordering relates every two paths. |
| Paths.PathLeAntisymmetric | patcher.py:261 | Two paths ordered both ways are equal. |
| Paths.PathLeTransitive | patcher.py:261 | The path ordering is transitive. |
| Paths.SortPaths | patcher.py:261 | `sorted(...)` returns the same paths, counted with multiplicity, in ascending path order. |
| Paths.SortedPermutationsEqual | patcher.py:261 | Two sorted arrangements of the same paths are equal, so the sorted POV order does not depend on the listing order. |
| Workspace.StaleLocksMembers | patcher.py:66 | The glob `.git/**/*.lock` selects exactly the `*.lock` files at any depth under `.git`. |
| Workspace.ResetUnlinksExactlyStaleLocks | patcher.py:66-68 | A reset deletes a file iff it is a stale lock file of the workspace. |
| Workspace.ResetPlanOrder | patcher.py:66-77 | Every deletion comes first, then `git reset --hard HEAD`, then `git clean -fd`, which is last. |
| Workspace.ResetSource | patcher.py:64-77 | The loop produces exactly the reset plan. The files left are exactly the workspace's files that are not stale locks. |
| Workspace.SetupSource | patcher.py:80-102 | No project when the download failed. If `repo` exists, it is the project iff it holds `.git`, with no fallback. Otherwise the project is the first directory, in listing order, that holds `.git`, and none when there is no such directory. |
| CopilotCli.ParseTimeout | agents/copilot_cli.py:23-27 | Unset reads as 0. A value `int()` rejects, including one of more than 4300 digits, becomes 0. Otherwise the value is the parsed integer. |
| CopilotCli.ParseInt | agents/copilot_cli.py:25 | `int()` accepts a string only if it holds at least one and at most 4300 (`sys.get_int_max_str_digits()`) decimal digits. |
| CopilotCli.ParseIntRoundTrip | agents/copilot_cli.py:25 | An integer written in decimal, with or without a minus sign, is read back as itself iff it has at most 4300 digits; with more, `int()` refuses it. |
| CopilotCli.TimeoutRoundTrip | agents/copilot_cli.py:24-27 | An integer setting of AGENT_TIMEOUT is honoured exactly when it has at most 4300 digits, and reads as 0 otherwise. |
| CopilotCli.SeparatorControlsRejected | agents/copilot_cli.py:24-27 | Two instances of the rule below: "\x1c5" and "5\x1f" are rejected, and AGENT_TIMEOUT="\x1c5" gives timeout 0 (no timeout). |
| CopilotCli.AnySeparatorRejected | agents/copilot_cli.py:25 | Every string that holds one of the separators U+001C..U+001F, at any position, is rejected by `int()`. `str.isspace()` accepts them, but `int()` does not strip them. |
| CopilotCli.PaddingIgnored | agents/copilot_cli.py:25 | Whitespace that `int()` strips, on either side of an unpadded string, does not change how it reads. This covers ASCII \t \n \v \f \r and space, and the non-ASCII characters `str.isspace()` accepts. |
| CopilotCli.TimeoutWithoutDigitsIsZero | agents/copilot_cli.py:24-27 | A setting with no digit at all ("", "abc", " - ") gives timeout 0. |
| CopilotCli.WaitBound | agents/copilot_cli.py:197 | The wait is unbounded iff the timeout is 0. |
| CopilotCli.Setup | agents/copilot_cli.py:33-103 | IS_SANDBOX is always "1". The three token variables get the key iff both URL and key are non-empty. No other variable changes. The actions are exactly: create copilot_home; then, iff both URL and key are non-empty, write `config.json` (model, baseUrl) and then set it to mode 0o600; then write `~/.gitignore` as "AGENTS.md\n" and register it with git. Nothing else is written. |
| CopilotCli.Next | agents/copilot_cli.py:196-207 | The supervisor's state machine never returns to the not-started state. Only a wait reaps the process. A signal that fails for a reason other than a gone group, or a wait that raises, stops the machine. A grace sleep of any length but 2 s stops it too. |
| CopilotCli.Drive | agents/copilot_cli.py:196-207 | From the not-started state, the machine stays there exactly on the empty history, and a history that reaps ends with a wait. |
| CopilotCli.DriveHistory | agents/copilot_cli.py:196-207 | Every event sequence the supervisor's state machine accepts has the history its final state requires. A reaped process was last waited on. If its wait timed out, the group was sent SIGTERM and the final wait was unbounded. |
| CopilotCli.TimedOutRunsEndInTermAndWait | agents/copilot_cli.py:199-207 | When a timed-out run is reaped, SIGTERM was sent to the group and the final event is an unbounded wait. No timed-out agent is left unreaped. |
| CopilotCli.KillSequenceReaps | agents/copilot_cli.py:201-207 | Both kill sequences reach the reaped state: TERM, grace, KILL, wait when TERM was delivered, and TERM, wait when the group was already gone. |
| CopilotCli.KillGroup | agents/copilot_cli.py:199-207 | The exact events of each case. A failed SIGTERM ends at once. A gone group goes straight to an unbounded wait. A delivered SIGTERM is followed by the 2 s grace and SIGKILL, then an unbounded wait unless SIGKILL failed. It ends with an error iff a signal failed for a reason other than the group being gone. Otherwise it drives the process from overdue to reaped. |
| CopilotCli.Supervise | agents/copilot_cli.py:186-210 | A launch failure is raised as itself. Otherwise spawn, then a wait bounded by the timeout (unbounded for 0). A timeout of magnitude at least 2**1024 - 2**970 cannot become a float, so the wait raises OverflowError at once: supervision ends with that error and the CLI is left running, neither signalled nor reaped. A result means the machine reached the reaped state and carries the process's exit code. An error comes only from the launch, a failed signal or that overflow. With timeout 0 there is never a timeout or a signal. The wait times out iff there is a non-zero timeout that fits a float and the process overruns it. The result is exactly `SuperviseOutcome`: the exit code when there is no timeout or the CLI exits in time, and after a timeout the error of a failed SIGTERM, or of a failed SIGKILL after a delivered SIGTERM, else the exit code. The events are exactly `SuperviseEvents`; after a timeout they are `[Spawn, WaitTimedOut]` followed by the kill sequence for the process's own SIGTERM and SIGKILL results. |
| CopilotCli.SupervisionEndsIffReaped | agents/copilot_cli.py:186-210 | Supervision returns normally iff its events drive the process from not started to reaped. Every error leaves the process unreaped. |
| CopilotCli.KillEventsDrive | agents/copilot_cli.py:199-207 | The kill sequence reaps the process iff neither SIGTERM fails nor, after a delivered SIGTERM, SIGKILL fails. |
| CopilotCli.CrashLogPathsDistinct | agents/copilot_cli.py:132 | Different POV indexes get different `crash_log_{i}.txt` files. |
| CopilotCli.CrashLogFilesHoldLogs | agents/copilot_cli.py:131-133 | After the crash-log writes, `crash_log_{i}.txt` holds exactly the i-th POV's crash log. No POV's file is overwritten by another's. No other file is created or changed. |
| CopilotCli.PovSection | agents/copilot_cli.py:136-139 | A POV's entry names the POV path, its crash-log file, `--harness <harness>` and `--builder <builder>`. |
| CopilotCli.PovLines | agents/copilot_cli.py:136-139 | The entry's text, from the rendered paths, contains the POV, the crash log, the harness option and the builder option. |
| CopilotCli.WriteCrashLogs | agents/copilot_cli.py:129-139 | The loop performs exactly one crash-log write per POV, in order, and builds exactly one POV section per POV, each for that POV and its `crash_log_{i}.txt`. |
| CopilotCli.DiffSection | agents/copilot_cli.py:143-151 | Empty iff there is no reference diff or it is empty. Otherwise it is the heading and a ```` ```diff ```` fence holding the diff verbatim. |
| CopilotCli.Prompt | agents/copilot_cli.py:167-170 | The prompt opens with "Fix the vulnerability. There are <n>" for the POV count n, and names the crash-log glob `<work_dir>/crash_log_*.txt`. |
| CopilotCli.PromptDeterminesCount | agents/copilot_cli.py:167-170 | The prompt determines the POV count it states. |
| CopilotCli.CopilotCommand | agents/copilot_cli.py:175-182 | The command runs `copilot` with the prompt after `-p`, the model after `--model`, and `--yolo` last, in exactly six arguments. |
| CopilotCli.Run | agents/copilot_cli.py:106-222 | Actions, in order: the work dir, the crash logs, then AGENTS.md. The two CLI log files are not among them. AGENTS.md is formatted with the POV sections joined by "\n", `pov_count = len(povs)` and the diff section. The CLI is spawned with the prompt built from `len(povs)`. A launch error becomes the session's error. The supervision outcome and events are exactly those of `Supervise` for every run, launched or not. The result is true iff supervision raised nothing and `patches_dir` holds a `*.diff`, whatever the exit code. |
| Patcher.PovCandidatesMembers | patcher.py:261 | The filter keeps exactly the regular files whose own name does not start with ".". |
| Patcher.PovFiles | patcher.py:261 | The POV list is sorted in path order and holds exactly the selected files, each as often as the listing does. |
| Patcher.PovFilesMembers | patcher.py:261 | A path is in the POV list iff it is such a file. |
| Patcher.PovFilesCanonical | patcher.py:261 | Any sorted permutation of the selected files equals the POV list. |
| Patcher.PovFilesEmptyIff | patcher.py:261-263 | The POV list is empty iff the listing holds no such file. |
| Patcher.ReproductionRequests | patcher.py:166-171 | Without a harness the sidecar is never called. With one it is called exactly once per POV, in order, for the base build. |
| Patcher.ReproductionOnlyRunsPovs | patcher.py:166-171 | Reproduction performs only sidecar calls. |
| Patcher.ResetCounts | patcher.py:64-77 | One `_reset_source` runs `git reset --hard HEAD` exactly once and never runs the agent. |
| Patcher.SessionBracketsAgent | patcher.py:173-182 | The agent runs exactly once, with exactly one hard reset before it and exactly one after it. Every sidecar call precedes every reset step. |
| Patcher.SessionEvents | patcher.py:156-190 | A session consists only of sidecar calls, reset steps, and its own agent run. |
| Patcher.SessionFacts | patcher.py:166-182 | A session runs the agent once, with its own request, and never waits for the flush. |
| Patcher.ProcessPovs | patcher.py:156-190 | The loop builds exactly the crash pairs. The trace is reproduce-all, reset, the agent run with exactly these arguments, reset. The batch is patched iff `/patches` holds a `*.diff`, whatever the agent returned. |
| Patcher.StartUp | patcher.py:196-258 | Exit 1 on a missing snapshot, a missing source, or an unknown agent. An uncaught error when `init_crs_utils`, the POV fetch or the template agent's `setup` raises. Otherwise setup completes in a `/work/src` directory that holds `.git`. libCRS is initialised first, then the watcher starts and the POVs are fetched. |
| Patcher.RunBatch | patcher.py:280-283 | Exactly one agent run, given every crash pair. The 30 s flush wait happens iff a patch appeared, and is then the last event. |
| Patcher.RunSession | patcher.py:276-283 | Exit 1 iff the builder lookup raises RuntimeError. Any other error escapes. Otherwise exit 0 after one session. The builder lookup comes first. |
| Patcher.RunPatcher | patcher.py:196-283 | `main`'s outcome: exit 1 exactly on a missing snapshot, a missing source, an unknown agent, or an unresolvable builder. Exit 0 exactly when setup completes and there are no POVs, or the builder resolves. Uncaught errors otherwise, including a failing `init_crs_utils`. The builder is looked up iff there are POVs. The agent runs once iff the session is reached, and never otherwise, with every POV's crash pair. The flush wait comes last and happens iff the session produced a `*.diff`. |

## Left out

- The libCRS SDK (`init_crs_utils`, `download_build_output`, `run_pov`, `get_service_domain`, `fetch`, `register_submit_dir`, `register_shared_dir`) is foreign code. Each call is an oracle value in `World` or an event. Where `main` does not catch a call's exception (`init_crs_utils`, the POV `fetch`), the oracle can raise and `main` ends uncaught.
- The patch-submission daemon thread is concurrency and is not modelled. It appears only as the `StartSubmitWatcher` event.
- The 30 s and 2 s sleeps are wall-clock time. They appear only as the `FlushWait` and `Grace` events.
- What git, `Popen`, process groups and signals do to the system is left out. Only the order of the abstract events is kept.
- The `~/.copilot` symlink/rmtree handling and its shared-dir registration (patcher.py:233-243) are filesystem plumbing. The model only passes `~/.copilot` to `setup`.
- `load_agent`'s dynamic import is a lookup in a registry of the two agent modules, with exit 1 on a miss. agents/template.py is modelled only as the `NotImplementedError` its `setup` raises.
- The AGENTS.md template file (agents/copilot_cli.md) is not part of this model. AGENTS.md is the record of the named arguments it is formatted with.
- The JSON text of `config.json` is left out; only its two fields are modelled.
- Logging and reading the environment at import time are left out. `Config` holds the values read, and `COPILOT_MODEL` is a parameter.
- Directory creation (`mkdir(parents=True, exist_ok=True)`) is not recorded in `main`, `setup_source`, `process_povs` or `reproduce_crash`. It is recorded in `run` and `setup`.
- Stem: follows `PurePath.stem` up to CPython 3.13, where a single trailing '.' is not a suffix ("a." keeps its stem "a."). CPython 3.14 changed this, and the model does not follow it. The 4300-digit limit of ParseInt assumes CPython 3.10.7, 3.11 or later; the `X | None` annotations need 3.10 or later anyway.
- ReproduceCrash: the `mkdir` of the response directory sits outside the `try`, so an OS error there would escape. The model treats that `mkdir` as always succeeding.
- WriteCrashLogs: a failing `write_text` of a crash log or of AGENTS.md would escape `run`. Writes are treated as succeeding.
- Setup: a failing write of `config.json` or `~/.gitignore` would escape. Writes are treated as succeeding. The result of `git config` is ignored, as in the source.
- ResetSource: a 60 s `TimeoutExpired` from either git command, or a failing `unlink`, would escape `process_povs`. Both commands are modelled as completing.
- RunPatcher: a failing read of `/work/diffs/ref.diff` is not modelled. The reference diff is given as the file's content, or as absent when it is not a file.
- ParseInt: accepts ASCII digits only. Python's `int()` also accepts other Unicode decimal digits, which are not modelled. The 4300-digit limit is CPython's default; changing it with `PYTHONINTMAXSTRDIGITS` or `-X int_max_str_digits` is not modelled.
- Supervise: whether the process exits before a bounded wait's deadline is an oracle flag, not a clock. The only way the bounded wait itself raises in the model is the float overflow of the timeout. The stdout/stderr log files are folded into the launch error, because failing to open them is handled like a failed launch. Creating and truncating `copilot_stdout.log` and `copilot_stderr.log` is not recorded as a write in `Run`'s actions.
