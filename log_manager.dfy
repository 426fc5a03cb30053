/**
 * The application's log manager: one manager object that is set up once
 * with a level and a log file, hands out loggers afterwards and lets the
 * level change at run time; and the module holding the global manager,
 * which sets the manager up with the defaults as soon as it is imported.
 *
 * The logging back end is not modelled: a successful setup returns the
 * sinks it would install (console, log file, error log) with their levels.
 * Paths are sequences of components; the project root, which the source
 * derives from the module's own file location, is a parameter.
 */
module Logging {
  import opened Wrappers

  type Path = seq<string>

  const DefaultLevel: string := "INFO"
  const ErrorLevel: string := "ERROR"
  const ValidLevels: seq<string> := ["DEBUG", "INFO", "WARNING", "ERROR", "CRITICAL"]

  datatype LogError = InvalidLevel(level: string) | NotInitialized

  datatype SinkTarget = Console | File(path: Path)
  datatype Sink = Sink(target: SinkTarget, level: string)

  /** What `setup` did: nothing (already set up), installed sinks, or raised. */
  datatype SetupOutcome = Skipped | Installed(sinks: seq<Sink>) | Raised(error: LogError)

  /** A logger: the back end's own (`None`) or one bound to a name. */
  datatype LoggerResult = Logger(boundName: Option<string>) | LoggerError(error: LogError)

  /** ASCII upper-casing of one character. */
  function UpperChar(c: char): (r: char)
    ensures 'a' <= c <= 'z' ==> r as int == c as int - 32
    ensures !('a' <= c <= 'z') ==> r == c
    ensures !('a' <= r <= 'z')
  {
    if 'a' <= c <= 'z' then (c as int - 32) as char else c
  }

  /** Upper-casing of a level name. */
  function Upper(s: string): (r: string)
    ensures |r| == |s| && forall i :: 0 <= i < |s| ==> r[i] == UpperChar(s[i])
  {
    seq(|s|, i requires 0 <= i < |s| => UpperChar(s[i]))
  }

  /** Upper-casing twice is upper-casing once. */
  lemma UpperIdempotent(s: string)
    ensures Upper(Upper(s)) == Upper(s)
  {
    var u := Upper(s);
    assert forall i :: 0 <= i < |u| ==> Upper(u)[i] == u[i];
  }

  /** The level names are already upper case. */
  lemma ValidLevelsAreUpper()
    ensures forall l :: l in ValidLevels ==> Upper(l) == l
  {
    assert Upper("DEBUG") == "DEBUG";
    assert Upper("INFO") == "INFO";
    assert Upper("WARNING") == "WARNING";
    assert Upper("ERROR") == "ERROR";
    assert Upper("CRITICAL") == "CRITICAL";
  }

  /** A level is accepted when its upper-cased form is one of the five names. */
  predicate IsValidLevel(level: string)
  {
    Upper(level) in ValidLevels
  }

  /** Acceptance ignores case: a name and its upper-cased form are accepted together. */
  lemma ValidLevelIgnoresCase(level: string)
    ensures IsValidLevel(level) <==> IsValidLevel(Upper(level))
    ensures IsValidLevel(level) ==> Upper(Upper(level)) in ValidLevels
  {
    UpperIdempotent(level);
  }

  lemma LevelExamples()
    ensures IsValidLevel("debug") && IsValidLevel("Warning") && IsValidLevel("CRITICAL")
    ensures Upper("debug") == "DEBUG"
    ensures !IsValidLevel("INVALID_LEVEL") && !IsValidLevel("WARN") && !IsValidLevel("")
  {
    assert Upper("debug") == "DEBUG";
    assert Upper("Warning") == "WARNING";
    assert Upper("CRITICAL") == "CRITICAL";
    assert Upper("WARN") == "WARN";
    assert Upper("INVALID_LEVEL") == "INVALID_LEVEL";
  }

  /** The default level is accepted. */
  lemma DefaultLevelIsValid()
    ensures IsValidLevel(DefaultLevel) && Upper(DefaultLevel) == DefaultLevel
  {
    assert Upper("INFO") == "INFO";
  }

  /** The directory holding `p`; a bare file name lies in the current directory. */
  function Parent(p: Path): (r: Path)
    ensures |r| >= 1
    ensures |p| > 1 ==> p == r + [p[|p| - 1]]
    ensures |p| <= 1 ==> r == ["."]
  {
    if |p| > 1 then p[..|p| - 1] else ["."]
  }

  /** The log file: the one given, or `logs/app.log` under the project root. */
  function LogFilePath(given: Option<Path>, projectRoot: Path): (r: Path)
    ensures given.Some? ==> r == given.value
    ensures given.None? ==> |r| == |projectRoot| + 2 && r[..|projectRoot|] == projectRoot
                            && r[|projectRoot|..] == ["logs", "app.log"]
  {
    match given
    case Some(p) => p
    case None => projectRoot + ["logs", "app.log"]
  }

  /** The error log: `error.log` next to the log file. */
  function ErrorLogPath(logFile: Path): (r: Path)
    ensures |r| >= 2 && r[|r| - 1] == "error.log" && Parent(r) == Parent(logFile)
  {
    Parent(logFile) + ["error.log"]
  }

  /**
   * The sinks a successful setup installs: the console and the log file at
   * the configured level, the error log at the error level.
   */
  function SetupSinks(level: string, logFile: Path): seq<Sink>
  {
    [Sink(Console, level), Sink(File(logFile), level), Sink(File(ErrorLogPath(logFile)), ErrorLevel)]
  }

  class LogManager {
    var initialized: bool
    var logLevel: string
    var logFile: Option<Path>
    /** The sinks installed in the back end, each with the level it filters at. */
    var sinks: seq<Sink>

    /**
     * The level is always one of the five names; before setup the manager
     * holds the default level, no log file and no sinks, after it a log file.
     */
    ghost predicate Valid()
      reads this
    {
      logLevel in ValidLevels
      && (!initialized ==> logLevel == DefaultLevel && logFile == None && sinks == [])
      && (initialized ==> logFile.Some?)
    }

    /** A fresh manager: not set up, default level, no log file, no sinks. */
    constructor ()
      ensures Valid() && !initialized && logLevel == DefaultLevel && logFile == None && sinks == []
    {
      initialized := false;
      logLevel := DefaultLevel;
      logFile := None;
      sinks := [];
    }

    /**
     * `setup`: skipped without any change once set up; a level that is not
     * one of the five names (in any case) raises before anything changes;
     * otherwise the upper-cased level and the log file are stored, the
     * sinks are installed and the manager is set up.
     */
    method Setup(level: string, file: Option<Path>, projectRoot: Path) returns (r: SetupOutcome)
      requires Valid()
      modifies this
      ensures Valid()
      ensures old(initialized) ==>
                r == Skipped && initialized && logLevel == old(logLevel) && logFile == old(logFile)
                && sinks == old(sinks)
      ensures !old(initialized) && !IsValidLevel(level) ==>
                r == Raised(InvalidLevel(level)) && !initialized
                && logLevel == old(logLevel) && logFile == old(logFile) && sinks == old(sinks)
      ensures !old(initialized) && IsValidLevel(level) ==>
                initialized && logLevel == Upper(level)
                && logFile == Some(LogFilePath(file, projectRoot))
                && sinks == SetupSinks(Upper(level), LogFilePath(file, projectRoot))
                && r == Installed(sinks)
    {
      if initialized {
        return Skipped;
      }
      if Upper(level) !in ValidLevels {
        return Raised(InvalidLevel(level));
      }
      logLevel := Upper(level);
      var path := LogFilePath(file, projectRoot);
      logFile := Some(path);
      sinks := SetupSinks(logLevel, path);
      r := Installed(sinks);
      initialized := true;
    }

    /**
     * `get_logger`: an error before setup; the back end's own logger for a
     * missing or empty name; a logger bound to the name otherwise.
     */
    method GetLogger(name: Option<string>) returns (r: LoggerResult)
      ensures !initialized ==> r == LoggerError(NotInitialized)
      ensures initialized && (name.None? || name.value == "") ==> r == Logger(None)
      ensures initialized && name.Some? && name.value != "" ==> r == Logger(name)
    {
      if !initialized {
        return LoggerError(NotInitialized);
      }
      if name.Some? && name.value != "" {
        return Logger(name);
      }
      return Logger(None);
    }

    /**
     * `set_level`: an error before setup, an error for a name that is not
     * one of the five; otherwise the upper-cased name becomes the recorded
     * level. The installed sinks are not touched and keep filtering at the
     * level they were installed with.
     */
    method SetLevel(level: string) returns (r: Outcome<LogError>)
      requires Valid()
      modifies this`logLevel
      ensures Valid() && sinks == old(sinks)
      ensures !initialized ==> r == Fail(NotInitialized) && logLevel == old(logLevel)
      ensures initialized && !IsValidLevel(level) ==> r == Fail(InvalidLevel(level)) && logLevel == old(logLevel)
      ensures initialized && IsValidLevel(level) ==> r == Pass && logLevel == Upper(level)
    {
      if !initialized {
        return Fail(NotInitialized);
      }
      if Upper(level) !in ValidLevels {
        return Fail(InvalidLevel(level));
      }
      logLevel := Upper(level);
      return Pass;
    }
  }

  /** The log manager module's global state: the lazily created manager. */
  class LogModule {
    var manager: LogManager?
    const projectRoot: Path

    ghost predicate Valid()
      reads this, manager
    {
      manager != null ==> manager.Valid()
    }

    /**
     * Importing the module: no manager yet, then `setup_logger()` with the
     * defaults, which creates the manager and sets it up at the default
     * level with the default log file.
     */
    constructor (root: Path)
      ensures Valid() && projectRoot == root && manager != null && fresh(manager)
      ensures manager.initialized && manager.logLevel == DefaultLevel
      ensures manager.logFile == Some(root + ["logs", "app.log"])
      ensures manager.sinks == SetupSinks(DefaultLevel, root + ["logs", "app.log"])
    {
      projectRoot := root;
      manager := null;
      new;
      DefaultLevelIsValid();
      var _ := SetupLogger(DefaultLevel, None);
    }

    /** `get_log_manager`: the global manager, created on first use. */
    method GetLogManager() returns (m: LogManager)
      requires Valid()
      modifies this`manager
      ensures Valid() && manager == m
      ensures old(manager) != null ==> m == old(manager)
      ensures old(manager) == null ==> fresh(m) && !m.initialized && m.logLevel == DefaultLevel && m.logFile == None
    {
      if manager == null {
        manager := new LogManager();
      }
      m := manager;
    }

    /** `setup_logger`: `setup` on the global manager. */
    method SetupLogger(level: string, file: Option<Path>) returns (r: SetupOutcome)
      requires Valid()
      modifies this`manager, manager
      ensures Valid() && manager != null
      ensures old(manager) != null ==> manager == old(manager)
      ensures old(manager) != null && old(manager.initialized) ==>
                r == Skipped && manager.initialized
                && manager.logLevel == old(manager.logLevel) && manager.logFile == old(manager.logFile)
                && manager.sinks == old(manager.sinks)
      ensures (old(manager) == null || !old(manager.initialized)) && IsValidLevel(level) ==>
                r.Installed? && manager.initialized && manager.logLevel == Upper(level)
                && manager.logFile == Some(LogFilePath(file, projectRoot))
                && manager.sinks == SetupSinks(Upper(level), LogFilePath(file, projectRoot))
      ensures (old(manager) == null || !old(manager.initialized)) && !IsValidLevel(level) ==>
                r == Raised(InvalidLevel(level)) && !manager.initialized
      ensures old(manager) == null ==> fresh(manager)
    {
      var m := GetLogManager();
      r := m.Setup(level, file, projectRoot);
    }

    /**
     * Start-up with the configured level, corrected: setup, then `set_level`
     * with the same level, so the manager reports the configured level (and
     * an invalid one is reported) whether or not the import already set the
     * manager up. Sinks the import already installed keep their level,
     * because `set_level` only records it.
     */
    method SetupWithConfiguredLevel(level: string) returns (r: Outcome<LogError>)
      requires Valid()
      modifies this`manager, manager
      ensures Valid() && manager != null
      ensures old(manager) != null ==> manager == old(manager)
      ensures IsValidLevel(level) ==> r == Pass && manager.initialized && manager.logLevel == Upper(level)
      ensures !IsValidLevel(level) ==> r == Fail(InvalidLevel(level))
      ensures old(manager) != null && old(manager.initialized) && !IsValidLevel(level) ==>
                manager.logLevel == old(manager.logLevel)
      ensures old(manager) == null ==> fresh(manager)
      ensures old(manager) != null && old(manager.initialized) ==> manager.sinks == old(manager.sinks)
    {
      var outcome := SetupLogger(level, None);
      if outcome.Raised? {
        return Fail(outcome.error);
      }
      r := manager.SetLevel(level);
    }
  }

  /**
   * Once the module is imported every later setup is skipped: the
   * start-up's `setup_logger(log_level=...)` with the configured level
   * leaves the default level in place, and even an invalid level raises
   * nothing.
   */
  method ConfiguredLevelIgnored(root: Path, configured: string)
    returns (outcome: SetupOutcome, level: string, sinks: seq<Sink>)
    ensures outcome == Skipped && level == DefaultLevel
    ensures sinks == SetupSinks(DefaultLevel, root + ["logs", "app.log"])
  {
    var logging := new LogModule(root);
    outcome := logging.SetupLogger(configured, None);
    level := logging.manager.logLevel;
    sinks := logging.manager.sinks;
  }

  /**
   * With the corrected start-up the manager reports a valid configured
   * level; the console and log-file sinks the import installed still filter
   * at the default level.
   */
  method ConfiguredLevelApplied(root: Path, configured: string)
    returns (outcome: Outcome<LogError>, level: string, sinks: seq<Sink>)
    requires IsValidLevel(configured)
    ensures outcome == Pass && level == Upper(configured) && level in ValidLevels
    ensures sinks == SetupSinks(DefaultLevel, root + ["logs", "app.log"])
  {
    var logging := new LogModule(root);
    outcome := logging.SetupWithConfiguredLevel(configured);
    level := logging.manager.logLevel;
    sinks := logging.manager.sinks;
  }
}
