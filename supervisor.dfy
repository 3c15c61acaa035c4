/**
 * The supervisor's decisions and bookkeeping (src/main.rs): restoring on
 * start, the backup and update workflows, the main loop, and the exit code.
 *
 * Child processes are opaque handles. Everything the outside world answers
 * (whether a spawn succeeds, what a wait returns, what the image inspection
 * reports, which branch of the loop's race wins, whether the operator
 * interrupted, the wall clock) is an input. The run-wide shutdown token is
 * state: the operator's interrupt raises it, and so does
 * `terminate_and_wait`, since every child shares the run's token. Each workflow is a method that
 * acts on a `Runtime`, which records the effects in order, and is proved
 * equal to a function of its inputs; the properties are lemmas about those
 * functions.
 */
module Supervisor {
  import opened Common
  import opened Config

  /** The name a child process is started under. */
  datatype Label = AppLabel | BackupLabel | UpdateLabel | RestoreLabel

  /** An opaque handle on a started child; `id` tells apart handles started at different times. */
  datatype Process = Process(id: nat, name: Label)

  /** What the supervisor does to the outside world. */
  datatype Effect =
    | Spawned(p: Process)         // `Process::new` succeeded
    | SpawnFailed(name: Label)   // `Process::new` returned an error
    | Waited(p: Process)          // `wait` on the child
    | Terminated(p: Process)      // `terminate_and_wait` on the child

  /** A child's exit status; `code` is absent when a signal ended it. */
  datatype ExitStatus = ExitStatus(code: Option<int>) {
    predicate Success() { code == Some(0) }
  }

  /** What `wait` returns: the exit status, or an error observing it. */
  datatype WaitOutcome = Exited(status: ExitStatus) | WaitFailed

  datatype RestoreStrategy = Always | IfMissing

  /** The restore section as `restore_if_needed` reads it. */
  datatype RestoreConfig = RestoreConfig(dst: string, strategy: Option<RestoreStrategy>)

  /** The configuration as `run` destructures it. */
  datatype RunConfig = RunConfig(
    backup: Option<BackupConfig>,
    app: AppConfig,
    update: Option<UpdateConfig>,
    restore: Option<RestoreConfig>)

  /** Why a workflow or the run failed. */
  datatype Failure =
    | StartRestoreFailed | WaitRestoreFailed | ShutdownWhileRestoring
    | StartAppFailed
    | StartBackupFailed | WaitBackupFailed | BackupUnsuccessful
    | ImageTimeFailed | StartUpdateFailed | WaitUpdateFailed | TerminateAppFailed
    | AppWaitFailed
    | ShuttingDown

  /** The answer of an image inspection: an error, or the creation time if the image record has one. */
  datatype ImageTime = QueryFailed | Created(time: Option<Time>)

  /** The outside world's answers during a restore. */
  datatype RestoreReplies = RestoreReplies(dstExists: bool, spawns: bool, wait: WaitOutcome)

  /** The outside world's answers during a backup. */
  datatype BackupReplies = BackupReplies(appStopped: WaitOutcome, backupSpawns: bool, backupWait: WaitOutcome, appSpawns: bool)

  /** The outside world's answers during an update. */
  datatype UpdateReplies = UpdateReplies(
    oldTime: ImageTime, pullSpawns: bool, pullWait: WaitOutcome,
    newTime: ImageTime, appStopped: WaitOutcome, appSpawns: bool)

  /** The effects of a workflow, its result, and the id the next started child gets. */
  datatype Outcome<T> = Outcome(effects: seq<Effect>, result: Result<T, Failure>, next: nat)

  /**
   * How far `terminate_and_wait` reaches. As written it raises the token the
   * process was built with, and every process is built with the run's own
   * token (`Shared`). The intended reach is the one process (`PerProcess`).
   */
  datatype TokenScope = Shared | PerProcess

  /** The run-wide token after a workflow on `app` with `effects`: raised if it was, or if terminating `app` reached it. */
  function TokenAfter(scope: TokenScope, raised: bool, app: Process, effects: seq<Effect>): bool {
    raised || (scope == Shared && Terminated(app) in effects)
  }

  /** The processes the supervisor starts and waits for, with the record of what it did to them. */
  class Runtime {
    var log: seq<Effect>
    var next: nat
    /** Whether the run-wide shutdown token has been raised from inside the supervisor. */
    var shutdown: bool

    constructor ()
      ensures log == [] && next == 0 && !shutdown
    {
      log := [];
      next := 0;
      shutdown := false;
    }

    /** `Process::new`: starts a child under `name`, which fails unless `starts`. */
    method Spawn(name: Label, starts: bool) returns (p: Option<Process>)
      modifies this
      ensures starts ==> p == Some(Process(old(next), name)) && log == old(log) + [Spawned(p.value)] && next == old(next) + 1
      ensures !starts ==> p == None && log == old(log) + [SpawnFailed(name)] && next == old(next)
      ensures shutdown == old(shutdown)
    {
      if starts {
        p := Some(Process(next, name));
        log := log + [Spawned(p.value)];
        next := next + 1;
      } else {
        p := None;
        log := log + [SpawnFailed(name)];
      }
    }

    /** `Process::wait`, answered by `reply`. */
    method Wait(p: Process, reply: WaitOutcome) returns (w: WaitOutcome)
      modifies this
      ensures w == reply && log == old(log) + [Waited(p)] && next == old(next) && shutdown == old(shutdown)
    {
      log := log + [Waited(p)];
      w := reply;
    }

    /** `Process::terminate_and_wait`, answered by `reply`: raises the process's token, which under `Shared` is the run's. */
    method TerminateAndWait(p: Process, reply: WaitOutcome, scope: TokenScope) returns (w: WaitOutcome)
      modifies this
      ensures w == reply && log == old(log) + [Terminated(p)] && next == old(next)
      ensures shutdown == (old(shutdown) || scope == Shared)
    {
      log := log + [Terminated(p)];
      if scope == Shared {
        shutdown := true;
      }
      w := reply;
    }
  }

  // ---------------------------------------------------------------------
  // Restore

  /** The restore is skipped when the destination exists, unless the strategy says to restore always. */
  predicate SkipsRestore(dstExists: bool, strategy: Option<RestoreStrategy>) {
    dstExists && strategy != Some(Always)
  }

  /** What `restore_if_needed` does. Only an error observing the restore's exit fails it; its exit code is not looked at. */
  function Restore(r: RestoreConfig, next: nat, o: RestoreReplies): Outcome<()> {
    if SkipsRestore(o.dstExists, r.strategy) then Outcome([], Ok(()), next)
    else if !o.spawns then Outcome([SpawnFailed(RestoreLabel)], Err(StartRestoreFailed), next)
    else
      var p := Process(next, RestoreLabel);
      Outcome([Spawned(p), Waited(p)], if o.wait.WaitFailed? then Err(WaitRestoreFailed) else Ok(()), next + 1)
  }

  method RestoreIfNeeded(rt: Runtime, r: RestoreConfig, o: RestoreReplies) returns (res: Result<(), Failure>)
    modifies rt
    ensures var out := Restore(r, old(rt.next), o);
      rt.log == old(rt.log) + out.effects && rt.next == out.next && res == out.result
    ensures rt.shutdown == old(rt.shutdown)
  {
    if o.dstExists && r.strategy != Some(Always) {
      return Ok(());
    }
    var process := rt.Spawn(RestoreLabel, o.spawns);
    if process.None? {
      return Err(StartRestoreFailed);
    }
    var status := rt.Wait(process.value, o.wait);
    if status.WaitFailed? {
      return Err(WaitRestoreFailed);
    }
    return Ok(());
  }

  /** No restore process is started exactly when the destination exists and the strategy is not `Some(Always)`; an absent strategy skips too. */
  lemma RestoreSkipsExactly(r: RestoreConfig, next: nat, o: RestoreReplies)
    ensures Restore(r, next, o).effects == [] <==> o.dstExists && (r.strategy.None? || r.strategy == Some(IfMissing))
    ensures Restore(r, next, o).effects == [] ==> Restore(r, next, o).result == Ok(())
  {
    if !SkipsRestore(o.dstExists, r.strategy) {
      assert |Restore(r, next, o).effects| > 0;
    }
    match r.strategy
    case None =>
    case Some(strategy) =>
      assert strategy == Always || strategy == IfMissing;
  }

  /** A restore that ran fails only when its exit could not be observed: an unsuccessful exit code is not an error. */
  lemma RestoreIgnoresExitCode(r: RestoreConfig, next: nat, o: RestoreReplies)
    ensures Restore(r, next, o).result.Err? <==>
      !SkipsRestore(o.dstExists, r.strategy) && (!o.spawns || o.wait.WaitFailed?)
  {
  }

  // ---------------------------------------------------------------------
  // Backup

  /** Whether the backup stops the app: it does unless the strategy is `Live`, the default being `StopApp`. */
  predicate StopsApp(strategy: Option<BackupStrategy>) {
    strategy.GetOr(DefaultBackupStrategy()) == StopApp
  }

  /** What `start_backup` does, given the current app process. */
  function Backup(strategy: Option<BackupStrategy>, app: Process, next: nat, o: BackupReplies): Outcome<Process> {
    var stopping := StopsApp(strategy);
    var stopped := if stopping then [Terminated(app)] else [];
    if !o.backupSpawns then Outcome(stopped + [SpawnFailed(BackupLabel)], Err(StartBackupFailed), next)
    else
      var b := Process(next, BackupLabel);
      var ran := stopped + [Spawned(b), Waited(b)];
      if o.backupWait.WaitFailed? then Outcome(ran, Err(WaitBackupFailed), next + 1)
      else if !o.backupWait.status.Success() then Outcome(ran, Err(BackupUnsuccessful), next + 1)
      else if !stopping then Outcome(ran, Ok(app), next + 1)
      else if !o.appSpawns then Outcome(ran + [SpawnFailed(AppLabel)], Err(StartAppFailed), next + 1)
      else
        var restarted := Process(next + 1, AppLabel);
        Outcome(ran + [Spawned(restarted)], Ok(restarted), next + 2)
  }

  method StartBackup(rt: Runtime, scope: TokenScope, backup: BackupConfig, appProcess: Process, o: BackupReplies)
    returns (res: Result<Process, Failure>)
    modifies rt
    ensures var out := Backup(backup.strategy, appProcess, old(rt.next), o);
      && rt.log == old(rt.log) + out.effects && rt.next == out.next && res == out.result
      && rt.shutdown == TokenAfter(scope, old(rt.shutdown), appProcess, out.effects)
  {
    var app := appProcess;
    var stopping := backup.strategy.GetOr(DefaultBackupStrategy()) == StopApp;
    if stopping {
      var _ := rt.TerminateAndWait(app, o.appStopped, scope);
    }
    var process := rt.Spawn(BackupLabel, o.backupSpawns);
    if process.None? {
      return Err(StartBackupFailed);
    }
    var status := rt.Wait(process.value, o.backupWait);
    if status.WaitFailed? {
      return Err(WaitBackupFailed);
    }
    if !status.status.Success() {
      return Err(BackupUnsuccessful);
    }
    if stopping {
      var respawned := rt.Spawn(AppLabel, o.appSpawns);
      if respawned.None? {
        return Err(StartAppFailed);
      }
      app := respawned.value;
    }
    return Ok(app);
  }

  /** An absent strategy stops the app, like `StopApp`; only `Live` keeps it running. */
  lemma StopsAppUnlessLive(strategy: Option<BackupStrategy>)
    ensures StopsApp(strategy) <==> strategy != Some(Live)
  {
  }

  /**
   * Stopping the app: it is terminated before the backup process is started,
   * and a new app process is started only after the backup exited
   * successfully; that new process is the result.
   */
  lemma BackupStopsAppFirst(strategy: Option<BackupStrategy>, app: Process, next: nat, o: BackupReplies)
    requires StopsApp(strategy)
    requires app.id < next
    ensures var out := Backup(strategy, app, next, o);
      && out.effects[0] == Terminated(app)
      && (out.result.Ok? ==>
            var b := Process(next, BackupLabel);
            && o.backupWait.Exited? && o.backupWait.status.Success()
            && out.effects == [Terminated(app), Spawned(b), Waited(b), Spawned(out.result.value)]
            && out.result.value.name == AppLabel
            && out.result.value != app)
  {
  }

  /** The `Live` strategy never terminates the app, and a successful backup hands back the same app process. */
  lemma LiveBackupKeepsApp(app: Process, next: nat, o: BackupReplies)
    ensures var out := Backup(Some(Live), app, next, o);
      && (forall k :: 0 <= k < |out.effects| ==> !out.effects[k].Terminated?)
      && (out.result.Ok? ==> out.result.value == app)
  {
  }

  /** A backup that does not exit successfully fails the workflow without restarting the app, which under `StopApp` therefore stays stopped. */
  lemma FailedBackupLeavesAppStopped(strategy: Option<BackupStrategy>, app: Process, next: nat, o: BackupReplies)
    requires o.backupSpawns && !(o.backupWait.Exited? && o.backupWait.status.Success())
    ensures var out := Backup(strategy, app, next, o);
      && out.result.Err?
      && (forall k :: 0 <= k < |out.effects| ==> out.effects[k].Spawned? ==> out.effects[k].p.name == BackupLabel)
      && (StopsApp(strategy) <==> Terminated(app) in out.effects)
  {
  }

  /** Terminating the app is best effort: what that wait reports does not change the backup. */
  lemma BackupIgnoresStopStatus(strategy: Option<BackupStrategy>, app: Process, next: nat, o: BackupReplies, w: WaitOutcome)
    ensures Backup(strategy, app, next, o.(appStopped := w)) == Backup(strategy, app, next, o)
  {
  }

  // ---------------------------------------------------------------------
  // Update

  /** The app is restarted when the new image time is known and differs from the old one, including when the old one was unknown. */
  predicate ImageChanged(oldTime: Option<Time>, newTime: Option<Time>) {
    newTime.Some? && newTime != oldTime
  }

  /** What `start_update` does, given the current app process. */
  function Update(app: Process, next: nat, o: UpdateReplies): Outcome<Process> {
    match o.oldTime
    case QueryFailed => Outcome([], Err(ImageTimeFailed), next)
    case Created(oldTime) =>
      if !o.pullSpawns then Outcome([SpawnFailed(UpdateLabel)], Err(StartUpdateFailed), next)
      else
        var u := Process(next, UpdateLabel);
        var pulled := [Spawned(u), Waited(u)];
        if o.pullWait.WaitFailed? then Outcome(pulled, Err(WaitUpdateFailed), next + 1)
        else match o.newTime
          case QueryFailed => Outcome(pulled, Err(ImageTimeFailed), next + 1)
          case Created(newTime) =>
            if !ImageChanged(oldTime, newTime) then Outcome(pulled, Ok(app), next + 1)
            else
              var stopped := pulled + [Terminated(app)];
              if o.appStopped.WaitFailed? then Outcome(stopped, Err(TerminateAppFailed), next + 1)
              else if !o.appSpawns then Outcome(stopped + [SpawnFailed(AppLabel)], Err(StartAppFailed), next + 1)
              else
                var restarted := Process(next + 1, AppLabel);
                Outcome(stopped + [Spawned(restarted)], Ok(restarted), next + 2)
  }

  method StartUpdate(rt: Runtime, scope: TokenScope, appProcess: Process, o: UpdateReplies) returns (res: Result<Process, Failure>)
    modifies rt
    ensures var out := Update(appProcess, old(rt.next), o);
      && rt.log == old(rt.log) + out.effects && rt.next == out.next && res == out.result
      && rt.shutdown == TokenAfter(scope, old(rt.shutdown), appProcess, out.effects)
  {
    var app := appProcess;
    if o.oldTime.QueryFailed? {
      return Err(ImageTimeFailed);
    }
    var oldTime := o.oldTime.time;
    var process := rt.Spawn(UpdateLabel, o.pullSpawns);
    if process.None? {
      return Err(StartUpdateFailed);
    }
    var pulled := rt.Wait(process.value, o.pullWait);
    if pulled.WaitFailed? {
      return Err(WaitUpdateFailed);
    }
    if o.newTime.QueryFailed? {
      return Err(ImageTimeFailed);
    }
    var newTime := o.newTime.time;
    if newTime.Some? && newTime != oldTime {
      var stopped := rt.TerminateAndWait(app, o.appStopped, scope);
      if stopped.WaitFailed? {
        return Err(TerminateAppFailed);
      }
      var respawned := rt.Spawn(AppLabel, o.appSpawns);
      if respawned.None? {
        return Err(StartAppFailed);
      }
      app := respawned.value;
    }
    return Ok(app);
  }

  /**
   * Once both image times are known, the app is terminated, and a successful
   * update returns a different process, exactly when the image changed;
   * otherwise the same process is returned untouched.
   */
  lemma UpdateRestartsExactlyWhenChanged(app: Process, next: nat, o: UpdateReplies)
    requires app.id < next
    requires o.oldTime.Created? && o.newTime.Created? && o.pullSpawns && o.pullWait.Exited?
    ensures var out := Update(app, next, o);
      && (Terminated(app) in out.effects <==> ImageChanged(o.oldTime.time, o.newTime.time))
      && (out.result.Ok? ==> (out.result.value == app <==> !ImageChanged(o.oldTime.time, o.newTime.time)))
      && (!ImageChanged(o.oldTime.time, o.newTime.time) ==> out.result == Ok(app))
  {
    var out := Update(app, next, o);
    var u := Process(next, UpdateLabel);
    if !ImageChanged(o.oldTime.time, o.newTime.time) {
      assert out.effects == [Spawned(u), Waited(u)];
    }
  }

  /** Two equal image times cause no restart: the app is never terminated and stays the current process. */
  lemma UpdateWithoutNewImageIsNoOp(app: Process, next: nat, o: UpdateReplies)
    requires o.oldTime.Created? && o.newTime == o.oldTime
    ensures var out := Update(app, next, o);
      && (forall k :: 0 <= k < |out.effects| ==> !out.effects[k].Terminated?)
      && (out.result.Ok? ==> out.result.value == app)
  {
  }

  /** The pull's exit status is never checked: only an error observing it matters. */
  lemma UpdateIgnoresPullStatus(app: Process, next: nat, o: UpdateReplies, s: ExitStatus)
    requires o.pullWait.Exited?
    ensures Update(app, next, o.(pullWait := Exited(s))) == Update(app, next, o)
  {
  }

  // ---------------------------------------------------------------------
  // The main loop

  /** The update schedule: the configured one, or the default (daily) when the section is absent. */
  function UpdateInterval(c: RunConfig): Interval {
    c.update.GetOr(DefaultUpdateConfig()).interval
  }

  /** How long until the next backup; none when backups are not configured or the schedule is exhausted. */
  function NextBackup(c: RunConfig, lastBackup: Option<Time>, now: Time, cal: Calendar, cron: Cron): Option<nat> {
    match c.backup
    case Some(b) => Next(b.interval, lastBackup, now, cal, cron)
    case None => None
  }

  /** How long until the next update check. */
  function NextUpdate(c: RunConfig, lastUpdate: Option<Time>, now: Time, cal: Calendar, cron: Cron): Option<nat> {
    Next(UpdateInterval(c), lastUpdate, now, cal, cron)
  }

  /** Which branch of the loop's race wins, with the outside world's answers for it. */
  datatype Arm = BackupFires(backup: BackupReplies) | UpdateFires(update: UpdateReplies) | AppExits(wait: WaitOutcome)

  /**
   * One turn of the loop: whether the operator's interrupt had raised the
   * token when it was checked, the wall clock when the waits were computed,
   * the branch that won, and the wall clock when that branch's workflow
   * finished.
   */
  datatype Tick = Tick(shutdown: bool, now: Time, arm: Arm, finished: Time)

  /** The loop's variables: the current app process, the last backup and update times, and whether the run-wide token is raised. */
  datatype LoopState = LoopState(process: Process, lastBackup: Option<Time>, lastUpdate: Option<Time>, shutdown: bool)

  /** How a turn ends: the loop goes on with a new state, or `run` returns. */
  datatype StepOutcome =
    | Continue(effects: seq<Effect>, state: LoopState, next: nat)
    | Stop(effects: seq<Effect>, result: Result<ExitStatus, Failure>, next: nat)

  /** How `run` ends: with its result, or still looping when the supplied turns run out. */
  datatype RunEnd = Ended(result: Result<ExitStatus, Failure>) | Running

  datatype RunOutcome = RunOutcome(effects: seq<Effect>, end: RunEnd, next: nat)

  /** A timer branch can win the race only if its wait exists: a missing wait sleeps forever. */
  predicate CanFire(c: RunConfig, s: LoopState, t: Tick, cal: Calendar, cron: Cron) {
    match t.arm
    case BackupFires(_) => NextBackup(c, s.lastBackup, t.now, cal, cron).Some?
    case UpdateFires(_) => NextUpdate(c, s.lastUpdate, t.now, cal, cron).Some?
    case AppExits(_) => true
  }

  /**
   * One turn of the `while` loop in `run`: the check of the token, then the
   * race. A tick whose branch cannot win is no turn at all.
   */
  function Step(c: RunConfig, cal: Calendar, cron: Cron, scope: TokenScope, s: LoopState, next: nat, t: Tick): StepOutcome {
    if t.shutdown || s.shutdown then Stop([], Err(ShuttingDown), next)
    else if !CanFire(c, s, t, cal, cron) then Continue([], s, next)
    else match t.arm
      case BackupFires(o) =>
        var w := Backup(c.backup.value.strategy, s.process, next, o);
        if w.result.Err? then Stop(w.effects, Err(w.result.error), w.next)
        else Continue(w.effects, s.(process := w.result.value, lastBackup := Some(t.finished),
                                    shutdown := TokenAfter(scope, s.shutdown, s.process, w.effects)), w.next)
      case UpdateFires(o) =>
        var w := Update(s.process, next, o);
        if w.result.Err? then Stop(w.effects, Err(w.result.error), w.next)
        else Continue(w.effects, s.(process := w.result.value, lastUpdate := Some(t.finished),
                                    shutdown := TokenAfter(scope, s.shutdown, s.process, w.effects)), w.next)
      case AppExits(w) =>
        Stop([Waited(s.process)], if w.WaitFailed? then Err(AppWaitFailed) else Ok(w.status), next)
  }

  /** The loop over the supplied turns, following the effects `done` already recorded. */
  function Loop(c: RunConfig, cal: Calendar, cron: Cron, scope: TokenScope, s: LoopState, next: nat,
                done: seq<Effect>, ticks: seq<Tick>): RunOutcome
    decreases |ticks|
  {
    if ticks == [] then RunOutcome(done, Running, next)
    else match Step(c, cal, cron, scope, s, next, ticks[0])
      case Stop(e, r, n) => RunOutcome(done + e, Ended(r), n)
      case Continue(e, s', n) => Loop(c, cal, cron, scope, s', n, done + e, ticks[1..])
  }

  /** The effects already recorded only prefix those of the loop: they do not change what it does. */
  lemma {:induction false} LoopAfter(c: RunConfig, cal: Calendar, cron: Cron, scope: TokenScope, s: LoopState, next: nat,
                                     before: seq<Effect>, done: seq<Effect>, ticks: seq<Tick>)
    ensures var out := Loop(c, cal, cron, scope, s, next, done, ticks);
      Loop(c, cal, cron, scope, s, next, before + done, ticks) == RunOutcome(before + out.effects, out.end, out.next)
    decreases |ticks|
  {
    if ticks != [] {
      match Step(c, cal, cron, scope, s, next, ticks[0])
      case Stop(e, r, n) =>
        assert (before + done) + e == before + (done + e);
      case Continue(e, s', n) =>
        assert (before + done) + e == before + (done + e);
        LoopAfter(c, cal, cron, scope, s', n, before, done + e, ticks[1..]);
    }
  }

  /** The outside world's answers before the loop starts. */
  datatype Startup = Startup(restore: RestoreReplies, shutdownAfterRestore: bool, latestSnapshot: Option<Time>, appSpawns: bool)

  /**
   * What `run` does before its loop: restore if configured, stop if the token
   * was raised meanwhile (by the operator, or already when `run` began), then
   * start the app.
   */
  function Start(c: RunConfig, st: Startup, next: nat, raised: bool): Outcome<Process> {
    var restored := if c.restore.Some? then Restore(c.restore.value, next, st.restore) else Outcome([], Ok(()), next);
    if restored.result.Err? then Outcome(restored.effects, Err(restored.result.error), restored.next)
    else if c.restore.Some? && (st.shutdownAfterRestore || raised) then
      Outcome(restored.effects, Err(ShutdownWhileRestoring), restored.next)
    else if !st.appSpawns then
      Outcome(restored.effects + [SpawnFailed(AppLabel)], Err(StartAppFailed), restored.next)
    else
      var app := Process(restored.next, AppLabel);
      Outcome(restored.effects + [Spawned(app)], Ok(app), restored.next + 1)
  }

  /** The last backup time the loop starts from: the latest snapshot's, when backups are configured. */
  function LastBackupAtStart(c: RunConfig, st: Startup): Option<Time> {
    if c.backup.Some? then st.latestSnapshot else None
  }

  /** What `run` does, given whether the token it is handed is already raised: start, then loop over the supplied turns. */
  function Supervise(c: RunConfig, cal: Calendar, cron: Cron, scope: TokenScope, st: Startup, next: nat,
                     raised: bool, ticks: seq<Tick>): RunOutcome {
    var started := Start(c, st, next, raised);
    match started.result
    case Err(f) => RunOutcome(started.effects, Ended(Err(f)), started.next)
    case Ok(app) =>
      Loop(c, cal, cron, scope, LoopState(app, LastBackupAtStart(c, st), None, raised), started.next, started.effects, ticks)
  }

  /** One turn of the `while` loop in `run`, after the token was found lowered: the branch that won runs, and the loop's variables are updated. */
  method Turn(rt: Runtime, c: RunConfig, cal: Calendar, cron: Cron, scope: TokenScope, process: Process,
              lastBackup: Option<Time>, lastUpdate: Option<Time>, t: Tick)
    returns (stop: Option<Result<ExitStatus, Failure>>, process': Process, lastBackup': Option<Time>, lastUpdate': Option<Time>)
    requires !t.shutdown && !rt.shutdown
    modifies rt
    ensures match Step(c, cal, cron, scope, LoopState(process, lastBackup, lastUpdate, false), old(rt.next), t)
      case Stop(e, r, n) =>
        && rt.log == old(rt.log) + e && rt.next == n && stop == Some(r)
        && rt.shutdown == TokenAfter(scope, false, process, e)
      case Continue(e, s', n) =>
        rt.log == old(rt.log) + e && rt.next == n && stop == None &&
        s' == LoopState(process', lastBackup', lastUpdate', rt.shutdown)
  {
    stop, process', lastBackup', lastUpdate' := None, process, lastBackup, lastUpdate;
    var nextBackup := NextBackup(c, lastBackup, t.now, cal, cron);
    var nextUpdate := NextUpdate(c, lastUpdate, t.now, cal, cron);
    match t.arm {
      case BackupFires(o) =>
        if nextBackup.Some? {
          var r := StartBackup(rt, scope, c.backup.value, process, o);
          if r.Err? {
            stop := Some(Err(r.error));
            return;
          }
          process' := r.value;
          lastBackup' := Some(t.finished);
        }
      case UpdateFires(o) =>
        if nextUpdate.Some? {
          var r := StartUpdate(rt, scope, process, o);
          if r.Err? {
            stop := Some(Err(r.error));
            return;
          }
          process' := r.value;
          lastUpdate' := Some(t.finished);
        }
      case AppExits(w) =>
        var status := rt.Wait(process, w);
        stop := Some(if status.WaitFailed? then Err(AppWaitFailed) else Ok(status.status));
    }
  }

  /**
   * The `while` loop of `run`, over the supplied turns: it runs until the
   * token is raised, the app exits, a workflow fails, or the turns run out.
   */
  method RunLoop(rt: Runtime, c: RunConfig, cal: Calendar, cron: Cron, scope: TokenScope, app: Process,
                 lastBackupAtStart: Option<Time>, ticks: seq<Tick>) returns (end: RunEnd)
    modifies rt
    ensures Loop(c, cal, cron, scope, LoopState(app, lastBackupAtStart, None, old(rt.shutdown)), old(rt.next), old(rt.log), ticks)
      == RunOutcome(rt.log, end, rt.next)
  {
    var process := app;
    var lastBackup := lastBackupAtStart;
    var lastUpdate: Option<Time> := None;
    ghost var whole := Loop(c, cal, cron, scope, LoopState(app, lastBackupAtStart, None, rt.shutdown), rt.next, rt.log, ticks);
    var i := 0;
    while i < |ticks| && !ticks[i].shutdown && !rt.shutdown
      invariant 0 <= i <= |ticks|
      invariant Loop(c, cal, cron, scope, LoopState(process, lastBackup, lastUpdate, rt.shutdown), rt.next, rt.log, ticks[i..]) == whole
      decreases |ticks| - i
    {
      assert ticks[i..][0] == ticks[i] && ticks[i..][1..] == ticks[i + 1..];
      var stop;
      stop, process, lastBackup, lastUpdate := Turn(rt, c, cal, cron, scope, process, lastBackup, lastUpdate, ticks[i]);
      if stop.Some? {
        return Ended(stop.value);
      }
      i := i + 1;
    }
    if i < |ticks| {
      return Ended(Err(ShuttingDown));
    }
    return Running;
  }

  /** `run`, over the supplied turns of the loop. */
  method Run(rt: Runtime, c: RunConfig, cal: Calendar, cron: Cron, scope: TokenScope, st: Startup, ticks: seq<Tick>)
    returns (end: RunEnd)
    modifies rt
    ensures var out := Supervise(c, cal, cron, scope, st, old(rt.next), old(rt.shutdown), ticks);
      rt.log == old(rt.log) + out.effects && rt.next == out.next && end == out.end
  {
    ghost var restoredSpec := if c.restore.Some? then Restore(c.restore.value, old(rt.next), st.restore)
                              else Outcome([], Ok(()), old(rt.next));
    if c.restore.Some? {
      var restored := RestoreIfNeeded(rt, c.restore.value, st.restore);
      if restored.Err? {
        return Ended(Err(restored.error));
      }
      if st.shutdownAfterRestore || rt.shutdown {
        return Ended(Err(ShutdownWhileRestoring));
      }
    }
    assert restoredSpec.result.Ok? && rt.log == old(rt.log) + restoredSpec.effects && rt.next == restoredSpec.next;

    var lastBackup: Option<Time> := None;
    if c.backup.Some? {
      lastBackup := st.latestSnapshot;
    }

    var started := rt.Spawn(AppLabel, st.appSpawns);
    if started.None? {
      return Ended(Err(StartAppFailed));
    }
    ghost var startedSpec := Start(c, st, old(rt.next), old(rt.shutdown));
    assert startedSpec == Outcome(restoredSpec.effects + [Spawned(started.value)], Ok(started.value), rt.next);
    assert rt.log == old(rt.log) + startedSpec.effects;
    end := RunLoop(rt, c, cal, cron, scope, started.value, lastBackup, ticks);
    LoopAfter(c, cal, cron, scope, LoopState(started.value, lastBackup, None, old(rt.shutdown)), startedSpec.next,
              old(rt.log), startedSpec.effects, ticks);
  }

  /** Once the token is raised, by the operator or from inside, the turn does nothing and `run` fails with "Shutting down". */
  lemma ShutdownEndsRun(c: RunConfig, cal: Calendar, cron: Cron, scope: TokenScope, s: LoopState, next: nat,
                        done: seq<Effect>, ticks: seq<Tick>)
    requires ticks != [] && (ticks[0].shutdown || s.shutdown)
    ensures Loop(c, cal, cron, scope, s, next, done, ticks) == RunOutcome(done, Ended(Err(ShuttingDown)), next)
  {
  }

  /**
   * The last backup and update times move only when their workflow returned
   * successfully, and then to the time it finished; the current process
   * changes only to the one a successful workflow returned.
   */
  lemma StepBookkeeping(c: RunConfig, cal: Calendar, cron: Cron, scope: TokenScope, s: LoopState, next: nat, t: Tick)
    ensures match Step(c, cal, cron, scope, s, next, t)
      case Continue(_, s', _) =>
        && (s'.lastBackup != s.lastBackup ==>
              t.arm.BackupFires? && c.backup.Some? &&
              Backup(c.backup.value.strategy, s.process, next, t.arm.backup).result == Ok(s'.process) &&
              s'.lastBackup == Some(t.finished))
        && (s'.lastUpdate != s.lastUpdate ==>
              t.arm.UpdateFires? && Update(s.process, next, t.arm.update).result == Ok(s'.process) &&
              s'.lastUpdate == Some(t.finished))
        && (s'.process != s.process ==> s'.lastBackup == Some(t.finished) || s'.lastUpdate == Some(t.finished))
      case Stop(_, _, _) => true
  {
  }

  /** A turn where the backup timer fires and the backup succeeds records the time the backup finished. */
  lemma SuccessfulBackupRecorded(c: RunConfig, cal: Calendar, cron: Cron, scope: TokenScope, s: LoopState, next: nat, t: Tick)
    requires !t.shutdown && !s.shutdown && t.arm.BackupFires? && CanFire(c, s, t, cal, cron)
    requires Backup(c.backup.value.strategy, s.process, next, t.arm.backup).result.Ok?
    ensures Step(c, cal, cron, scope, s, next, t).Continue?
    ensures Step(c, cal, cron, scope, s, next, t).state.lastBackup == Some(t.finished)
    ensures Step(c, cal, cron, scope, s, next, t).state.process
            == Backup(c.backup.value.strategy, s.process, next, t.arm.backup).result.value
  {
  }

  /**
   * A turn where the update timer fires and the update succeeds records the
   * time the update finished, whether or not the app was restarted.
   */
  lemma SuccessfulUpdateRecorded(c: RunConfig, cal: Calendar, cron: Cron, scope: TokenScope, s: LoopState, next: nat, t: Tick)
    requires !t.shutdown && !s.shutdown && t.arm.UpdateFires? && CanFire(c, s, t, cal, cron)
    requires Update(s.process, next, t.arm.update).result.Ok?
    ensures Step(c, cal, cron, scope, s, next, t).Continue?
    ensures Step(c, cal, cron, scope, s, next, t).state.lastUpdate == Some(t.finished)
    ensures Step(c, cal, cron, scope, s, next, t).state.lastBackup == s.lastBackup
    ensures Step(c, cal, cron, scope, s, next, t).state.process == Update(s.process, next, t.arm.update).result.value
  {
  }

  /** The backup timer can fire only when a backup is configured, so the loop's `unwrap` of it never fails. */
  lemma BackupFiresOnlyWhenConfigured(c: RunConfig, cal: Calendar, cron: Cron, s: LoopState, t: Tick)
    requires t.arm.BackupFires? && CanFire(c, s, t, cal, cron)
    ensures c.backup.Some?
  {
  }

  /** The loop's invariant: the current process is an app process started before the next id was handed out. */
  predicate Owned(s: LoopState, next: nat) {
    s.process.name == AppLabel && s.process.id < next
  }

  /** Every turn keeps the loop's invariant. */
  lemma StepKeepsOwnership(c: RunConfig, cal: Calendar, cron: Cron, scope: TokenScope, s: LoopState, next: nat, t: Tick)
    requires Owned(s, next)
    ensures match Step(c, cal, cron, scope, s, next, t)
      case Continue(_, s', n) => Owned(s', n) && next <= n
      case Stop(_, _, n) => next <= n
  {
  }

  /** No effect in `effects` is the start of a backup process. */
  predicate NoBackupStarted(effects: seq<Effect>) {
    forall k :: 0 <= k < |effects| ==> !(effects[k].Spawned? && effects[k].p.name == BackupLabel)
  }

  /** Without a backup section, the loop never starts a backup process, however the races go. */
  lemma {:induction false} NoBackupWithoutConfig(c: RunConfig, cal: Calendar, cron: Cron, scope: TokenScope, s: LoopState,
                                                 next: nat, done: seq<Effect>, ticks: seq<Tick>)
    requires c.backup.None? && NoBackupStarted(done)
    ensures NoBackupStarted(Loop(c, cal, cron, scope, s, next, done, ticks).effects)
    decreases |ticks|
  {
    if ticks != [] {
      match Step(c, cal, cron, scope, s, next, ticks[0])
      case Stop(e, r, n) =>
        assert NoBackupStarted(e);
      case Continue(e, s', n) =>
        assert NoBackupStarted(e);
        NoBackupWithoutConfig(c, cal, cron, scope, s', n, done + e, ticks[1..]);
    }
  }

  /**
   * A daily or weekly backup whose next calendar day cannot be formed from the
   * last backup time (a daylight-saving gap or overlap, say) never fires
   * again. Only a backup moves `last_backup`, so every later turn finds no
   * backup wait, and no turn starts a backup process.
   */
  lemma {:induction false} FailedDayAdditionStopsBackups(c: RunConfig, cal: Calendar, cron: Cron, scope: TokenScope,
                                                         s: LoopState, next: nat, done: seq<Effect>, ticks: seq<Tick>)
    requires c.backup.Some? && (c.backup.value.interval.Daily? || c.backup.value.interval.Weekly?)
    requires s.lastBackup.Some? && cal.addDays(s.lastBackup.value, PeriodDays(c.backup.value.interval)).None?
    requires NoBackupStarted(done)
    ensures NoBackupStarted(Loop(c, cal, cron, scope, s, next, done, ticks).effects)
    decreases |ticks|
  {
    if ticks != [] {
      assert NextBackup(c, s.lastBackup, ticks[0].now, cal, cron).None?;
      match Step(c, cal, cron, scope, s, next, ticks[0])
      case Stop(e, r, n) =>
        assert NoBackupStarted(e);
      case Continue(e, s', n) =>
        assert s'.lastBackup == s.lastBackup;
        assert NoBackupStarted(e);
        FailedDayAdditionStopsBackups(c, cal, cron, scope, s', n, done + e, ticks[1..]);
    }
  }

  /** If the token was raised during the restore, `run` fails before the app is ever started. */
  lemma ShutdownDuringRestoreNeverStartsApp(c: RunConfig, cal: Calendar, cron: Cron, scope: TokenScope, st: Startup,
                                            next: nat, raised: bool, ticks: seq<Tick>)
    requires c.restore.Some? && (st.shutdownAfterRestore || raised)
    ensures var out := Supervise(c, cal, cron, scope, st, next, raised, ticks);
      && out.end.Ended? && out.end.result.Err?
      && (forall k :: 0 <= k < |out.effects| ==> !(out.effects[k].Spawned? && out.effects[k].p.name == AppLabel))
  {
  }

  // ---------------------------------------------------------------------
  // The reach of `terminate_and_wait`

  /**
   * As written (`Shared`): a turn that terminates the app raises the run's
   * token, so whatever the next turn brings, `run` then fails with
   * "Shutting down", although the operator never interrupted.
   */
  lemma TerminationEndsRun(c: RunConfig, cal: Calendar, cron: Cron, s: LoopState, next: nat,
                           done: seq<Effect>, ticks: seq<Tick>)
    requires |ticks| >= 2
    requires Step(c, cal, cron, Shared, s, next, ticks[0]).Continue?
    requires Terminated(s.process) in Step(c, cal, cron, Shared, s, next, ticks[0]).effects
    ensures var first := Step(c, cal, cron, Shared, s, next, ticks[0]);
      Loop(c, cal, cron, Shared, s, next, done, ticks) == RunOutcome(done + first.effects, Ended(Err(ShuttingDown)), first.next)
  {
    var first := Step(c, cal, cron, Shared, s, next, ticks[0]);
    assert ticks[1..][0] == ticks[1];
    ShutdownEndsRun(c, cal, cron, Shared, first.state, first.next, done + first.effects, ticks[1..]);
  }

  /** A configuration with only the app section: no backups, no restore, and the default daily update check. */
  function AppOnlyConfig(app: AppConfig): RunConfig {
    RunConfig(None, app, None, None)
  }

  /**
   * Two turns with no interrupt. In the first, the update check finds a newer
   * image, and the pull, the app's termination and its restart all succeed.
   * In the second, the restarted app exits cleanly.
   */
  function UpdateThenExit(now: Time): seq<Tick> {
    var ok := Exited(ExitStatus(Some(0)));
    [Tick(false, now, UpdateFires(UpdateReplies(Created(Some(now - 10)), true, ok, Created(Some(now)), ok, true)), now + 60),
     Tick(false, now + 120, AppExits(ok), now + 120)]
  }

  /**
   * The counterexample. With the shared token, the supervisor stops with
   * "Shutting down" right after the first image update. With the token
   * reaching only the terminated process, it goes on supervising the
   * restarted app, whose clean exit becomes the result.
   */
  lemma UpdateShutsDownSupervisor(app: AppConfig, now: Time, cal: Calendar, cron: Cron)
    requires cal.addDays(now, 1) == Some(now + DaySeconds)
    ensures var c := AppOnlyConfig(app);
      var s := LoopState(Process(0, AppLabel), None, None, false);
      && Loop(c, cal, cron, Shared, s, 1, [], UpdateThenExit(now)).end == Ended(Err(ShuttingDown))
      && Loop(c, cal, cron, PerProcess, s, 1, [], UpdateThenExit(now)).end == Ended(Ok(ExitStatus(Some(0))))
  {
    var c := AppOnlyConfig(app);
    var s := LoopState(Process(0, AppLabel), None, None, false);
    var ticks := UpdateThenExit(now);
    assert CanFire(c, s, ticks[0], cal, cron);
    TerminationEndsRun(c, cal, cron, s, 1, [], ticks);
    assert ticks[1..] == [ticks[1]];
  }

  /** Intended (`PerProcess`): no turn raises the token, so only the operator's interrupt ever ends `run` with "Shutting down". */
  lemma {:induction false} OnlyInterruptShutsDown(c: RunConfig, cal: Calendar, cron: Cron, s: LoopState, next: nat,
                                                  done: seq<Effect>, ticks: seq<Tick>)
    requires !s.shutdown
    requires Loop(c, cal, cron, PerProcess, s, next, done, ticks).end == Ended(Err(ShuttingDown))
    ensures exists k :: 0 <= k < |ticks| && ticks[k].shutdown
    decreases |ticks|
  {
    assert ticks != [];
    if ticks[0].shutdown {
      assert ticks[0].shutdown;
    } else {
      match Step(c, cal, cron, PerProcess, s, next, ticks[0])
      case Stop(e, r, n) =>
        assert false;
      case Continue(e, s', n) =>
        assert !s'.shutdown;
        OnlyInterruptShutsDown(c, cal, cron, s', n, done + e, ticks[1..]);
        var k :| 0 <= k < |ticks[1..]| && ticks[1..][k].shutdown;
        assert ticks[k + 1].shutdown;
    }
  }

  /** Without a shared token, an app that is restarted keeps being supervised: the turn leaves the token as it was. */
  lemma RestartKeepsSupervising(c: RunConfig, cal: Calendar, cron: Cron, s: LoopState, next: nat, t: Tick)
    requires Step(c, cal, cron, PerProcess, s, next, t).Continue?
    ensures Step(c, cal, cron, PerProcess, s, next, t).state.shutdown == s.shutdown
  {
  }

  /** Without an update section the first update check waits for the daily schedule from start-up. */
  lemma DefaultUpdateIsDaily(c: RunConfig, now: Time, cal: Calendar, cron: Cron)
    requires c.update.None?
    ensures UpdateInterval(c) == Daily
    ensures NextUpdate(c, None, now, cal, cron) == Next(Daily, None, now, cal, cron)
  {
  }

  // ---------------------------------------------------------------------
  // Exit code

  /** The app's exit code as the program's own: kept when present and within `u8`, otherwise 1. */
  function ExitCode(code: Option<int>): (r: nat)
    ensures r <= 255
    ensures code.Some? && 0 <= code.value <= 255 ==> r == code.value
    ensures r != 1 ==> code == Some(r)
  {
    match code
    case Some(n) => if 0 <= n <= 255 then n else 1
    case None => 1
  }

  /** The program's exit code for the result of `run`: a returned error exits with 1, as Rust's `main` does for `Err`. */
  function ProgramExitCode(result: Result<ExitStatus, Failure>): (r: nat)
    ensures r <= 255
    ensures result.Err? ==> r == 1
    ensures result.Ok? && result.value.Success() ==> r == 0
    ensures result.Ok? ==> r == ExitCode(result.value.code)
  {
    match result
    case Ok(status) => ExitCode(status.code)
    case Err(_) => 1
  }
}
