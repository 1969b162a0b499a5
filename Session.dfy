/**
 * The capture lifecycle of the application window: the `proc` field that
 * says whether dvgrab is running, and the methods that start it, stop it,
 * note its exit, preview its command line and close the window.
 */
module Session {
  import opened Text
  import opened Command
  import opened Builder
  import opened Allocator
  import opened LogStream

  /** The running dvgrab child, represented by the command line it was started with. */
  datatype Process = Process(cmd: seq<string>)

  /** How a press of "Start" ended. */
  datatype StartOutcome =
    | AlreadyRunning
    | NotFound(path: string)
    | CreateFailed(folder: string)
    | SpawnFailed
    | Started(folder: string, cmd: seq<string>)

  /** `shutil.which(path)` finds it, or `Path(path).exists()`: the check before starting. */
  predicate Locatable(path: string, env: Env) {
    var found := env.searchPath(path);
    (found.Some? && found.value != []) || env.pathExists(path)
  }

  /** A host whose PATH search only ever answers with a file that exists. */
  ghost predicate Coherent(env: Env) {
    forall p :: env.searchPath(p).Some? && env.searchPath(p).value != [] ==> env.pathExists(env.searchPath(p).value)
  }

  /**
   * On a coherent host the resolved binary passes the check before starting
   * whenever the host knows it: the preference names an existing file, or
   * PATH finds the name that is searched for.
   */
  lemma KnownBinaryIsLocatable(pathPref: string, env: Env)
    requires Coherent(env)
    ensures pathPref != [] && env.pathExists(pathPref) ==> Locatable(WhichDvgrab(pathPref, env), env)
    ensures !(pathPref != [] && ('/' in pathPref || env.pathExists(pathPref))) ==>
              var found := env.searchPath(if pathPref == [] then "dvgrab" else pathPref);
              found.Some? && found.value != [] ==> Locatable(WhichDvgrab(pathPref, env), env)
  {
    var found := env.searchPath(if pathPref == [] then "dvgrab" else pathPref);
    if !(pathPref != [] && ('/' in pathPref || env.pathExists(pathPref))) && found.Some? && found.value != [] {
      assert WhichDvgrab(pathPref, env) == found.value;
      assert env.pathExists(found.value);
    }
  }

  const StartingPrefix := "Starting capture in: "
  const CommandPrefix := "Command: "
  const CopiedPrefix := "Copied command:\n"
  const StopMessage := "Stop signal sent."

  class App {
    var proc: Option<Process>
    var stopRequested: bool
    var lastFolder: Option<string>
    const settings: Settings
    const log: LogView

    /** A running dvgrab writes into the last allocated folder, under the base name "clip-". */
    predicate Valid()
      reads this
    {
      proc.Some? ==>
        && lastFolder.Some?
        && |proc.value.cmd| > 0
        && proc.value.cmd[|proc.value.cmd| - 1] == JoinPath(lastFolder.value, "clip-")
    }

    constructor (settings: Settings, log: LogView)
      ensures Valid()
      ensures proc == None && !stopRequested && lastFolder == None
      ensures this.settings == settings && this.log == log
    {
      proc := None;
      stopRequested := false;
      lastFolder := None;
      this.settings := settings;
      this.log := log;
    }

    /**
     * `start_capture`: refused while a capture runs and when the binary cannot
     * be found, changing nothing; otherwise it allocates and records the next
     * folder, logs it and the command, and starts dvgrab on the built command
     * line, unless the start fails (`spawns` false), which leaves no process.
     * `baseKey` is the resolved output directory and `listing` its children;
     * `created` says whether the new folder could be made, and when it could
     * not, the counter has already moved on and nothing else happens.
     * `shellLine` is the shell-quoted, space-joined form of a command.
     */
    method StartCapture(v: Values, baseKey: string, listing: seq<DirEntry>, env: Env,
                        shellLine: seq<string> -> string, created: bool, spawns: bool)
      returns (outcome: StartOutcome)
      requires Valid()
      modifies this, settings, log
      ensures Valid()
      ensures old(proc).Some? ==>
                outcome == AlreadyRunning && unchanged(this) && unchanged(settings) && unchanged(log)
      ensures old(proc).None? && !Locatable(WhichDvgrab(v.dvgrabPath, env), env) ==>
                outcome == NotFound(WhichDvgrab(v.dvgrabPath, env)) &&
                unchanged(this) && unchanged(settings) && unchanged(log)
      ensures old(proc).None? && Locatable(WhichDvgrab(v.dvgrabPath, env), env) && !created ==>
                var idx := NextIndex(old(settings.nextIndexByDir), baseKey, v.subfolderPrefix, listing);
                && settings.nextIndexByDir == old(settings.nextIndexByDir)[baseKey := idx + 1]
                && outcome == CreateFailed(JoinPath(baseKey, CandidateName(v.subfolderPrefix, idx)))
                && unchanged(this) && unchanged(log)
      ensures old(proc).None? && Locatable(WhichDvgrab(v.dvgrabPath, env), env) && created ==>
                var idx := NextIndex(old(settings.nextIndexByDir), baseKey, v.subfolderPrefix, listing);
                var folder := JoinPath(baseKey, CandidateName(v.subfolderPrefix, idx));
                var cmd := CommandLine(v, folder, WhichDvgrab(v.dvgrabPath, env));
                && settings.nextIndexByDir == old(settings.nextIndexByDir)[baseKey := idx + 1]
                && lastFolder == Some(folder)
                && !stopRequested
                && log.shown == old(log.shown) + [Shown(StartingPrefix + folder, false), Shown(CommandPrefix + shellLine(cmd), false)]
                && log.queue == old(log.queue)
                && (spawns ==> proc == Some(Process(cmd)) && outcome == Started(folder, cmd))
                && (!spawns ==> proc == None && outcome == SpawnFailed)
    {
      if proc.Some? {
        return AlreadyRunning;
      }
      var dvPath := WhichDvgrab(v.dvgrabPath, env);
      if !Locatable(dvPath, env) {
        return NotFound(dvPath);
      }
      var subdir := settings.FindNextSubfolder(baseKey, v.subfolderPrefix, listing);
      assert settings.nextIndexByDir ==
             old(settings.nextIndexByDir)[baseKey := NextIndex(old(settings.nextIndexByDir), baseKey, v.subfolderPrefix, listing) + 1];
      if !created {
        return CreateFailed(subdir);
      }
      var cmd := BuildDvgrabCmd(v, subdir, env);
      CommandFrame(v, subdir, dvPath);
      assert |cmd| > 0 && cmd[|cmd| - 1] == JoinPath(subdir, "clip-");
      outcome := Launch(subdir, cmd, shellLine, spawns);
    }

    /**
     * The end of `start_capture`, once the folder is made and the command
     * built: the folder is recorded, both are logged, the stop flag is
     * cleared, and dvgrab is started on `cmd` unless the start fails.
     */
    method Launch(folder: string, cmd: seq<string>, shellLine: seq<string> -> string, spawns: bool)
      returns (outcome: StartOutcome)
      requires proc.None?
      requires |cmd| > 0 && cmd[|cmd| - 1] == JoinPath(folder, "clip-")
      modifies this, log
      ensures Valid()
      ensures lastFolder == Some(folder) && !stopRequested
      ensures log.shown == old(log.shown) + [Shown(StartingPrefix + folder, false), Shown(CommandPrefix + shellLine(cmd), false)]
      ensures log.queue == old(log.queue)
      ensures spawns ==> proc == Some(Process(cmd)) && outcome == Started(folder, cmd)
      ensures !spawns ==> proc == None && outcome == SpawnFailed
    {
      lastFolder := Some(folder);
      log.Log(StartingPrefix + folder, false);
      log.Log(CommandPrefix + shellLine(cmd), false);
      stopRequested := false;
      if spawns {
        proc := Some(Process(cmd));
        outcome := Started(folder, cmd);
      } else {
        proc := None;
        outcome := SpawnFailed;
      }
    }

    /** `stop_capture`: nothing without a process; otherwise note the request and log that the signal went out. */
    method StopCapture()
      requires Valid()
      modifies this, log
      ensures Valid()
      ensures old(proc).None? ==> unchanged(this) && unchanged(log)
      ensures old(proc).Some? ==>
                && stopRequested
                && proc == old(proc) && lastFolder == old(lastFolder)
                && log.shown == old(log.shown) + [Shown(StopMessage, false)]
                && log.queue == old(log.queue)
    {
      if proc.None? {
        return;
      }
      stopRequested := true;
      log.Log(StopMessage, false);
    }

    /**
     * The end of `_pump_process` once `proc.wait()` returned `ret`: the exit
     * entries go onto the queue and the process is cleared. Without a process
     * the `assert` fails before anything is queued, and the process is cleared all the same.
     */
    method ProcessExited(ret: int)
      requires Valid()
      modifies this, log
      ensures Valid()
      ensures proc == None && stopRequested == old(stopRequested) && lastFolder == old(lastFolder)
      ensures log.queue == old(log.queue) + (if old(proc).Some? then ExitEntries(ret) else [])
      ensures log.shown == old(log.shown)
    {
      if proc.Some? {
        var entries := ExitEntries(ret);
        log.Put(entries[0]);
        log.Put(entries[1]);
      }
      proc := None;
    }

    /**
     * `copy_command`: allocate the next folder exactly as a start would, build
     * the command line for it and log its shell form; the stored counter moves
     * on even though nothing is started.
     */
    method CopyCommand(v: Values, baseKey: string, listing: seq<DirEntry>, env: Env, shellLine: seq<string> -> string)
      returns (cmd: seq<string>)
      modifies settings, log
      ensures var idx := NextIndex(old(settings.nextIndexByDir), baseKey, v.subfolderPrefix, listing);
              var folder := JoinPath(baseKey, CandidateName(v.subfolderPrefix, idx));
              && cmd == CommandLine(v, folder, WhichDvgrab(v.dvgrabPath, env))
              && settings.nextIndexByDir == old(settings.nextIndexByDir)[baseKey := idx + 1]
      ensures log.shown == old(log.shown) + [Shown(CopiedPrefix + shellLine(cmd), false)]
      ensures log.queue == old(log.queue)
    {
      var subdir := settings.FindNextSubfolder(baseKey, v.subfolderPrefix, listing);
      assert settings.nextIndexByDir ==
             old(settings.nextIndexByDir)[baseKey := NextIndex(old(settings.nextIndexByDir), baseKey, v.subfolderPrefix, listing) + 1];
      cmd := BuildDvgrabCmd(v, subdir, env);
      log.Log(CopiedPrefix + shellLine(cmd), false);
    }

    /**
     * `on_close`: with a capture running, the window stays open unless the
     * user confirms, and a confirmed close first asks dvgrab to stop.
     */
    method OnClose(confirmed: bool) returns (closes: bool)
      requires Valid()
      modifies this, log
      ensures Valid()
      ensures closes <==> old(proc).None? || confirmed
      ensures old(proc).None? || !confirmed ==> unchanged(this) && unchanged(log)
      ensures old(proc).Some? && confirmed ==>
                && stopRequested
                && proc == old(proc) && lastFolder == old(lastFolder)
                && log.shown == old(log.shown) + [Shown(StopMessage, false)]
                && log.queue == old(log.queue)
    {
      if proc.Some? {
        if !confirmed {
          return false;
        }
        StopCapture();
      }
      return true;
    }
  }
}
