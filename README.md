# pdrun core, modelled in Dafny

pdrun is a supervisor for one containerised application. It restores the
application's data on first start, starts the container with `docker run`,
backs the data up with restic on a schedule (stopping the app first unless
the strategy is `live`), pulls a newer image on a schedule and restarts the
app when the image changed, and exits with the app's own exit code.

This project models three sequential parts of it:

- `config.dfy` (module `Config`): the `Interval` schedule (`hourly`, `daily`,
  `weekly` or a cron expression), how long to wait until it next fires, its
  text form, and the configuration records with their defaults. Instants are
  whole seconds in the operator's time zone. Calendar-day addition is a
  partial function (`Calendar.addDays`). A parsed cron schedule is known only
  through the cron library's parser and its "first occurrence after t"
  (`Cron`).
- `runner.dfy` (module `Runner`): the `docker` argument vector `run_app`
  builds. The command builder is a class whose argument list grows one call at
  a time. `AppCommand` is proved to produce `DockerArgs`, and the layout of
  that vector is proved in lemmas.
- `supervisor.dfy` (module `Supervisor`): the decisions and bookkeeping of
  `main.rs`. It covers restore-on-start, the backup and update workflows, the
  main loop's race between the backup timer, the update timer and the app's
  exit, and the exit code. Child processes are opaque handles. A `Runtime`
  object records every effect (start, failed start, wait,
  terminate-and-wait) in order and hands out handle ids. It also holds the
  run-wide shutdown token. Everything the outside world answers is an input:
  - spawn success;
  - wait results;
  - image creation times;
  - which branch of the race wins;
  - whether the operator's interrupt has arrived;
  - the wall clock.

  Each workflow is a method proved equal to a function of those inputs
  (`Restore`, `Backup`, `Update`, `Step`, `Loop`, `Start`, `Supervise`). The
  properties are lemmas about those functions.
- `common.dfy` (module `Common`): `Option`, `Result` and `Time`.

Where the source files disagree with each other, each piece is modelled as its
own call site uses it:

- `run` destructures a `restore` field (src/main.rs:181-186) that `Config` in
  src/config.rs does not declare. `RunConfig` has the field.
  `RestoreConfig` and `RestoreStrategy` take the shape `restore_if_needed`
  reads; config.rs does not define them.
- `run_app` destructures `AppConfig` without `ports` and `network_mode`
  (src/runner.rs:13-19). `AppConfig` keeps both fields, and the argument
  vector ignores them.
- `start_update` treats the image creation time as optional
  (src/main.rs:164), although src/image_info.rs:14 returns a bare time. The
  model's `ImageTime` is either a failed query or `Created(Option<Time>)`.
- `run` treats the latest snapshot time as a plain optional time
  (src/main.rs:202-204). The model takes it as an `Option<Time>` input.

A restore that exits unsuccessfully is not an error. Only failing to start
it, or to observe its exit, fails `restore_if_needed` (src/main.rs:87-93).
The model follows that (`RestoreIgnoresExitCode`).

`terminate_and_wait` raises the shutdown token of the process it stops
(src/process.rs:121-123). Every process is built with a clone of `run`'s own
token (src/main.rs:139, 172, 207). So terminating the app, before a
stop-the-app backup or to restart after an update, raises the whole run's
token. The model keeps this reach as a parameter, `TokenScope`:

- `Shared` is the code as written.
- `PerProcess` is the evidently intended reach: terminating stops that one
  process only.

Every method and every other loop property is proved for both. The lemmas
under "## Findings" contrast the two.

## Model

| member | source | states |
|---|---|---|
| `Config.DefaultUpdateConfig` | src/config.rs:41-47 | The default update schedule is a fixed interval of one calendar day. |
| `Config.DefaultBackupStrategy` | src/config.rs:58-62 | The default backup strategy is not `Live`, so by default the app is stopped while backing up. |
| `Config.Candidate` | src/config.rs:102-107 | Hourly always has a candidate. Daily and weekly have none exactly when adding one or seven calendar days to `last`, or to `now` when there is no `last`, fails. On a uniform calendar a fixed candidate is that instant plus one period. A cron candidate lies strictly after `now` under the cron library's contract. |
| `Config.Next` | src/config.rs:97-114 | The wait exists exactly when a candidate instant exists. When the candidate is not before `now`, `now + wait` is the candidate. A candidate in the past gives a wait of zero. |
| `Config.FirstWaitIsOnePeriod` | src/config.rs:102-105 | With no previous trigger, hourly waits exactly one hour. Daily and weekly wait until the instant one or seven calendar days from `now`, and there is no wait when that day addition fails. |
| `Config.FirstWaitOnUniformCalendar` | src/config.rs:104-105 | When every day is 86400 seconds, the first daily wait is one day and the first weekly wait seven days, whenever the addition succeeds. |
| `Config.WaitWithinPeriod` | src/config.rs:102-111 | For a fixed interval whose last trigger is not after `now`, on any calendar (daylight-saving days included), the wait never exceeds one period as the calendar counts it. That is one hour, or the span from `last` to one or seven calendar days later. Hourly always yields a wait; daily and weekly yield none only when the day addition fails. |
| `Config.WaitWithinPeriodOnUniformCalendar` | src/config.rs:102-111 | Corollary for a calendar whose days are all 86400 seconds: the wait is at most one hour, one day or seven days. |
| `Config.MissedTriggerIsDueNow` | src/config.rs:109-111 | Catch-up after downtime, on any calendar: when the next trigger after `last` is already before `now`, the wait is zero. |
| `Config.MissedTriggerOnUniformCalendar` | src/config.rs:109-111 | Corollary for a calendar whose days are all 86400 seconds: once more than one hour, day or week has passed since `last`, the wait is zero. |
| `Config.NoWaitOnlyWhenDayAdditionFails` | src/config.rs:102-112 | Hourly always yields a wait. Daily and weekly yield none exactly when `checked_add_days` fails. |
| `Config.CustomFollowsSchedule` | src/config.rs:106-112 | A cron interval ignores `last`. It has no wait exactly when the schedule has no occurrence after `now`. Its wait is positive when occurrences lie strictly after `now`. |
| `Config.TrimPadded` | src/config.rs:76 | `trim` removes exactly the Unicode whitespace around text that has no whitespace at its ends. |
| `Config.ParseDisplayFixed` | src/config.rs:75-93 | Parsing the text form of hourly, daily or weekly, padded with any whitespace, gives back the same interval. |
| `Config.ParseDisplayCustom` | src/config.rs:80-91 | A cron interval round-trips through its text when that text is trimmed, is no keyword, and re-parses to the same schedule. |
| `Config.ParseKeywords` | src/config.rs:76-79 | A text parses to hourly, daily or weekly if and only if its trimmed form is that keyword. |
| `Config.Parse` | src/config.rs:75-82 | Parsing succeeds exactly when the trimmed text is a keyword or a valid cron expression. A failure carries the trimmed text. A cron result is what the cron parser gives for a trimmed text that is no keyword. |
| `Config.Display` | src/config.rs:85-93 | A fixed interval prints as a non-empty trimmed keyword, and each keyword names exactly one variant. A cron interval prints as the text it was parsed from. |
| `Runner.AppCommand` | src/runner.rs:8-44 | Built one `arg` call at a time, the command is `docker` with exactly the argument vector `DockerArgs`. |
| `Runner.ArgEnvironments` | src/runner.rs:21-25 | Appends "-e", "key=value" for each environment entry in iteration order, and nothing else. |
| `Runner.ArgEach` | src/runner.rs:27-37 | Appends the flag followed by each item, in list order, and nothing else. |
| `Runner.ArgvLength` | src/runner.rs:11-44 | The vector starts with "run". Its length is 1 + 2·envs + 2·volumes + 2·caps + 5 + args, and absent lists contribute nothing. |
| `Runner.ArgvEnvironments` | src/runner.rs:21-25 | Right after "run", each environment assignment appears as "-e" followed by it, in order. |
| `Runner.ArgvVolumes` | src/runner.rs:27-31 | After the environment pairs, each volume appears as "-v" followed by it, in list order. |
| `Runner.ArgvCapabilities` | src/runner.rs:33-37 | After the volume pairs, each capability appears as "--cap-add" followed by it, in list order. |
| `Runner.ArgvTail` | src/runner.rs:39-44 | After the per-entry options come "--network", "host", "-it", "--rm" and the image, whatever the config says. The user arguments are the verbatim suffix. |
| `Runner.EveryEnvironmentEntryPassed` | src/runner.rs:21-25 | Every entry of the environment map appears as the pair "-e", "key=value". |
| `Runner.PortsAndNetworkModeIgnored` | src/runner.rs:13-19 | Changing the config's ports or network mode does not change the argument vector. |
| `Supervisor.RestoreIfNeeded` | src/main.rs:77-96 | Records exactly the effects of `Restore` and returns its result. The shutdown token is left untouched. |
| `Supervisor.RestoreSkipsExactly` | src/main.rs:78-85 | No restore process is started exactly when the destination exists and the strategy is absent or `IfMissing`. A skipped restore succeeds. |
| `Supervisor.RestoreIgnoresExitCode` | src/main.rs:87-95 | A restore fails only when it cannot be started or its exit cannot be observed. An unsuccessful exit code is not an error. |
| `Supervisor.StartBackup` | src/main.rs:111-143 | Records exactly the effects of `Backup` and returns its result. Afterwards the run-wide token is raised if it was, or if the app was terminated through the shared token. |
| `Supervisor.StopsAppUnlessLive` | src/main.rs:117 | The backup stops the app unless the strategy is `Live`. An absent strategy takes the default `StopApp`. |
| `Supervisor.BackupStopsAppFirst` | src/main.rs:117-142 | When stopping the app, its first effect terminates the app. A successful backup is exactly: terminate app, start backup, wait for it (successful), start a new app process. The result is that new process. |
| `Supervisor.LiveBackupKeepsApp` | src/main.rs:117-142 | Under `Live` nothing is terminated, and a successful backup returns the same app process. |
| `Supervisor.FailedBackupLeavesAppStopped` | src/main.rs:127-134 | A backup that does not exit successfully fails the workflow and starts no app process. The app was terminated exactly when the strategy stops it. |
| `Supervisor.BackupIgnoresStopStatus` | src/main.rs:119-122 | What terminating the app reports does not affect the backup. |
| `Supervisor.StartUpdate` | src/main.rs:145-178 | Records exactly the effects of `Update` and returns its result. Afterwards the run-wide token is raised if it was, or if the app was terminated through the shared token. |
| `Supervisor.UpdateRestartsExactlyWhenChanged` | src/main.rs:164-177 | Once both image times are known, the app is terminated exactly when the new time is present and differs from the old one. A successful update returns a different process exactly then, and otherwise the same one. |
| `Supervisor.UpdateWithoutNewImageIsNoOp` | src/main.rs:160-175 | Equal image times terminate nothing and keep the current app process. |
| `Supervisor.UpdateIgnoresPullStatus` | src/main.rs:156-158 | The pull's exit status does not change the update. Only an error observing it does. |
| `Supervisor.Runtime.Spawn` | src/process.rs:28-106 | A start that succeeds yields a handle with a fresh id and the given name, records it, and advances the id counter. A failed start yields no handle, records the failure, and leaves the counter alone. The token is untouched either way. |
| `Supervisor.Runtime.Wait` | src/process.rs:108-119 | Records the wait on that handle and returns the supplied exit status or error; nothing else changes. |
| `Supervisor.Runtime.TerminateAndWait` | src/process.rs:121-124 | Records the termination and returns the supplied wait answer. Under the shared token it raises the run-wide shutdown token, and otherwise leaves it as it was. |
| `Supervisor.Turn` | src/main.rs:211-241 | One turn of the loop, taken after the token was found lowered, records exactly the effects of `Step`. It either returns `run`'s result or updates the current process, the last times and the token as `Step` says. |
| `Supervisor.RunLoop` | src/main.rs:198-244 | The `while` loop checks the token before every turn. It records exactly the effects of `Loop` over the supplied turns, and ends as `Loop` does. That includes ending with "Shutting down" on the turn after a termination raised the shared token. |
| `Supervisor.Run` | src/main.rs:180-245 | `run` records exactly the effects of `Supervise`: start-up, then the loop. It ends as `Supervise` does, from the token's state when `run` begins. |
| `Supervisor.LoopAfter` | src/main.rs:210-242 | Effects recorded before the loop only prefix the loop's own. They change neither what it does nor how it ends. |
| `Supervisor.ShutdownEndsRun` | src/main.rs:210-244 | A turn that finds the token raised does nothing more, and `run` ends with the "Shutting down" error. The token may have been raised by the operator or from inside. |
| `Supervisor.StepBookkeeping` | src/main.rs:226-236 | `last_backup` and `last_update` change only after their workflow returned successfully, and then to the time it finished. The current process changes only together with one of them. |
| `Supervisor.SuccessfulBackupRecorded` | src/main.rs:227-231 | A fired backup timer whose workflow succeeds continues the loop. `last_backup` becomes the finishing time, and the current process becomes the one the workflow returned. |
| `Supervisor.SuccessfulUpdateRecorded` | src/main.rs:233-236 | A fired update timer whose workflow succeeds continues the loop. `last_update` becomes the finishing time, whether or not the app was restarted. The current process becomes the one the workflow returned, and `last_backup` is unchanged. |
| `Supervisor.BackupFiresOnlyWhenConfigured` | src/main.rs:213-228 | The backup timer can win only when backups are configured, so the `unwrap` at line 228 never fails. |
| `Supervisor.StepKeepsOwnership` | src/main.rs:226-241 | Every turn keeps the loop invariant: the current process is an app process already started. |
| `Supervisor.NoBackupWithoutConfig` | src/main.rs:213-231 | Without a backup section, no sequence of races ever starts a backup process. |
| `Supervisor.FailedDayAdditionStopsBackups` | src/main.rs:213-231 | Suppose one or seven calendar days cannot be added to the last daily or weekly backup time, as in a daylight-saving gap or overlap. Then no later turn ever starts a backup process, since only a backup moves `last_backup`. |
| `Supervisor.ShutdownDuringRestoreNeverStartsApp` | src/main.rs:189-208 | If the token was raised by the end of the restore, `run` fails before the app is ever started. |
| `Supervisor.TerminationEndsRun` | src/main.rs:210-241 | As written, a turn that terminates the app raises the run's token. Whatever the next turn brings, `run` then ends with "Shutting down". |
| `Supervisor.UpdateShutsDownSupervisor` | src/main.rs:145-178 | Counterexample: an update finds a newer image and restarts the app, then the app exits cleanly, with no interrupt. As written this ends with "Shutting down"; with a per-process token it ends with the app's exit status 0. |
| `Supervisor.OnlyInterruptShutsDown` | src/main.rs:210-244 | With a per-process token, `run` ends with "Shutting down" only if the operator's interrupt arrived on some turn. |
| `Supervisor.RestartKeepsSupervising` | src/main.rs:226-236 | With a per-process token, no turn raises the run's token, so a restarted app stays supervised. |
| `Supervisor.DefaultUpdateIsDaily` | src/config.rs:41-47 | With no update section, the update schedule is the default: daily. |
| `Supervisor.ExitCode` | src/main.rs:69-72 | The program's code is always a `u8`. It equals the app's code when that is present and within 0..255. Any code other than 1 is the app's own. |
| `Supervisor.ProgramExitCode` | src/main.rs:63-74 | An error from `run` exits with 1. A status returned by `run` exits with `ExitCode` of the app's code, so an app code within 0..255 is mirrored and a successful exit gives 0. |

## Findings

| source | as written | input that shows it | evidently intended | confidence | as-written member | corrected member |
|---|---|---|---|---|---|---|
| src/process.rs:121-123 | `terminate_and_wait` raises the process's shutdown token. That token is a clone of `run`'s (src/main.rs:139, 172, 207), so stopping the app for a backup or an image update shuts the whole supervisor down. Children started afterwards are signalled at once, and the loop ends with "Shutting down". | The daily update check finds a newer image. The pull, the app's termination and its restart succeed, and no Ctrl-C arrives. `run` returns "Shutting down" instead of going on supervising the restarted app. On the backup path with the default `stop_app` strategy, the backup process itself starts with the token already raised. Its exit monitor signals it at once, so as written every stop-the-app backup fails with "Failed backing up app". | Terminating stops only that process; the run-wide token is raised only by the operator's interrupt. | high, not executed | `Supervisor.TerminationEndsRun` | `Supervisor.OnlyInterruptShutsDown` |

## Left out

- src/process.rs is not part of this model beyond its interface. Output pumping, the exit-status watch channel, SIGTERM, the 5-second grace period and kill escalation are left out: they are asynchronous concurrency and OS signals. `Runtime.Spawn`, `Wait` and `TerminateAndWait` record the effect and return the supplied answer. `TerminateAndWait` also raises the token when it is shared.
- A child started after the run's token was raised is signalled at once by its exit monitor (src/process.rs:133-137). The model does not derive that child's exit from the token; it is the supplied wait answer.
- The `select!` race, `sleep_until_or_forever`, `monitor_ctrl_c` and the runtime setup (src/main.rs:58-68, 98-109) are left out. Which branch wins is an input. A timer with no wait never wins, but when a timer fires relative to its wait is not modelled.
- Reading the config file, YAML deserialisation and command-line parsing (src/main.rs:45-56) are left out as I/O.
- src/restic.rs and src/image_info.rs are not part of this model. Their results (latest snapshot time, image creation time) are inputs. The command lines of the backup, restore and pull tools are not modelled. src/restores.rs calls `build_restic_command`, which src/restic.rs does not define, and src/backup.rs has no `backup` function.
- The cron library's schedule semantics and chrono's time-zone and day arithmetic are left abstract as `Cron` and `Calendar`. Time-zone conversion of `now` is assumed done by the caller.
- Config.Next: does not model chrono's overflow panic when adding one hour near the end of the representable range, because instants are unbounded integers.
- Spawning the container (src/runner.rs:46-53) is left out. Only the program and argument vector are modelled.
- The text forms of `BackupStrategy` and `NetworkMode` that strum derives are not modelled. They are library-generated.
- Logging (src/log.rs) and the hard-coded zone name (src/tz.rs) are left out as output and configuration.
- The loop runs over a finite list of turns. When the list runs out while the loop would continue, the model ends in `Running`.
