/** The logger object and what it acts on. `CLog` keeps the fields of the
    C++ class and updates them in place; `World` holds what its calls change
    outside it; `Process` holds the single instance behind `CLog::ins()` and
    the six leveled macros. Every method's `ensures` give its exact new
    state: the setters and `Close` update the old state directly, the other
    methods are proved to follow the matching function of `LogSpec`. */
module Clog {
  import opened ClogDefs
  import opened Records
  import opened LogSpec

  /** What the logger's calls change outside it: the file system, the
      static `struct tm` that `localtime` fills, and the ordered trace of
      lock callbacks, lines on stderr and file handle operations. */
  class World {
    var files: map<string, seq<string>>
    var localTm: Tm
    var events: seq<Event>

    function Model(): WorldState
      reads this
    {
      WorldState(files, localTm, events)
    }
  }

  class CLog {
    var udata: Address
    var lockFn: Option<FnPtr>
    var fp: Option<string>
    var level: int
    var quiet: bool
    var filename: string
    var domType: DomType
    var lastDay: int

    function Model(): CLogState
      reads this
    {
      CLogState(udata, lockFn, fp, level, quiet, filename, domType, lastDay)
    }

    ghost predicate Valid(w: World)
      reads this, w
    {
      Inv(Model(), w.Model())
    }

    /** Initialises every field and opens the first log file, named after
        the current time. */
    constructor (w: World, clock: Tm, canOpen: string -> bool)
      requires ValidTm(clock) && HandleInv(Defaults(), w.Model())
      modifies w
      ensures (Model(), w.Model()) == InitialStep(old(w.Model()), clock, canOpen)
      ensures Valid(w)
    {
      level, lockFn, quiet, udata := TRACE, None, false, 0;
      filename, fp, domType, lastDay := "", None, DomDate, -1;
      new;
      OpenNewFile(w, clock, canOpen);
    }

    /** The destructor: closes the handle if one is open. */
    method Close(w: World)
      requires Valid(w)
      modifies this, w
      ensures Model() == old(Model()).(fp := None)
      ensures w.Model() == old(w.Model()).(events := old(w.events) + if old(fp).Some? then [Closed(old(fp).value)] else [])
      ensures Valid(w)
    {
      if fp.Some? {
        CloseKeepsOneAtATime(w.events, fp.value);
        w.events := w.events + [Closed(fp.value)];
        fp := None;
      }
    }

    method Lock(w: World)
      modifies w
      ensures w.Model() == AcquireStep(Model(), old(w.Model()))
    {
      if lockFn.Some? {
        w.events := w.events + [LockCall(lockFn.value, udata, 1)];
      }
    }

    method Unlock(w: World)
      modifies w
      ensures w.Model() == ReleaseStep(Model(), old(w.Model()))
    {
      if lockFn.Some? {
        w.events := w.events + [LockCall(lockFn.value, udata, 0)];
      }
    }

    method SetUdata(udata: Address)
      modifies this
      ensures Model() == old(Model()).(udata := udata)
    {
      this.udata := udata;
    }

    method SetLock(fn: Option<FnPtr>)
      modifies this
      ensures Model() == old(Model()).(lock := fn)
    {
      lockFn := fn;
    }

    method SetLevel(level: int)
      modifies this
      ensures Model() == old(Model()).(level := level)
    {
      this.level := level;
    }

    method SetQuiet(enable: bool)
      modifies this
      ensures Model() == old(Model()).(quiet := enable)
    {
      quiet := enable;
    }

    method SetDomType(t: DomType)
      modifies this
      ensures Model() == old(Model()).(domType := t)
    {
      domType := t;
    }

    /** Closes the current handle, if any, then opens the file named after
        `clock` for appending; `fp` stays null when `fopen` fails. */
    method OpenNewFile(w: World, clock: Tm, canOpen: string -> bool)
      requires ValidTm(clock)
      modifies this, w
      ensures (Model(), w.Model()) == OpenNewFileStep(old(Model()), old(w.Model()), clock, canOpen)
    {
      if fp.Some? {
        w.events := w.events + [Closed(fp.value)];
        fp := None;
      }
      w.localTm := clock;
      filename := FileName(clock);
      if canOpen(filename) {
        if filename !in w.files {
          w.files := w.files[filename := []];
        }
        w.events := w.events + [Opened(filename)];
        fp := Some(filename);
      }
    }

    /** Whether a new log file is due under the rotation policy. Nothing in
        the logger calls it. The date branch reads the time into the shared
        `struct tm`. */
    method IsNewlogRequired(clock: Tm, fileSize: string -> int, w: World) returns (required: bool)
      modifies this`lastDay, w`localTm
      ensures (required, Model()) == NewlogStep(old(Model()), clock, fileSize)
      ensures w.files == old(w.files) && w.events == old(w.events)
      ensures w.localTm == if filename != "" && domType == DomDate then clock else old(w.localTm)
    {
      if filename == "" {
        return true;
      }
      if domType == DomSize {
        return fileSize(filename) > MAX_LOG_FILE_SIZE;
      }
      if domType == DomDate {
        w.localTm := clock;
        if clock.min != lastDay {
          lastDay := clock.mday;
          return true;
        }
      }
      return false;
    }

    /** The console block of `log_log`: one line on stderr, stamped from
        the shared `struct tm`, unless quiet. */
    method WriteConsole(level: Level, msg: string, w: World)
      requires ValidTm(w.localTm)
      modifies w
      ensures w.Model() == EmitStep(Model(), old(w.Model()), ConsoleLine(old(w.localTm), level, msg))
    {
      if !quiet {
        w.events := w.events + [Stderr(ConsoleLine(w.localTm, level, msg))];
      }
    }

    /** The file block of `log_log`: a new file when the current one is too
        large, then one line through the handle if it is open, stamped from
        the shared `struct tm` as it is after the size check. */
    method WriteFile(level: Level, msg: string, w: World, env: Env)
      requires Valid(w) && ValidTm(w.localTm) && ValidTm(env.clock)
      modifies this, w
      ensures var (s, w') := RotateStep(old(Model()), old(w.Model()), env);
        Model() == s && w.Model() == WriteStep(s, w', FileLine(w'.localTm, level, msg))
    {
      ghost var rotated := RotateStep(Model(), w.Model(), env);
      if env.fileSize(filename) > MAX_LOG_FILE_SIZE {
        OpenNewFile(w, env.clock, env.canOpen);
      }
      assert (Model(), w.Model()) == rotated;
      if fp.Some? {
        var line := FileLine(w.localTm, level, msg);
        w.files := w.files[fp.value := w.files[fp.value] + [line]];
        w.events := w.events + [Appended(fp.value, line)];
      }
    }

    /** Logs `msg` at `level`: filter, lock, console line, size check and
        file line, unlock. */
    method LogLog(level: Level, msg: string, w: World, env: Env)
      requires Valid(w) && ValidTm(env.now) && ValidTm(env.clock)
      modifies this, w
      ensures (Model(), w.Model()) == LogStep(old(Model()), old(w.Model()), level, msg, env)
      ensures Valid(w)
    {
      if level < this.level {
        return;
      }
      Lock(w);
      w.localTm := env.now;
      WriteConsole(level, msg, w);
      WriteFile(level, msg, w, env);
      Unlock(w);
    }
  }

  /** The process: the static instance inside `CLog::ins()`, created on
      first use. */
  class Process {
    var instance: CLog?

    constructor ()
      ensures instance == null
    {
      instance := null;
    }

    function Instance(): Option<CLogState>
      reads this, instance
    {
      if instance == null then None else Some(instance.Model())
    }

    ghost predicate Valid(w: World)
      reads this, instance, w
    {
      if instance == null then HandleInv(Defaults(), w.Model()) else instance.Valid(w)
    }

    /** `CLog::ins()`: the same instance on every call; the first call
        constructs it. */
    method Ins(w: World, clock: Tm, canOpen: string -> bool) returns (log: CLog)
      requires Valid(w) && ValidTm(clock)
      modifies this, w
      ensures instance == log && Valid(w)
      ensures old(instance) != null ==> log == old(instance) && w.Model() == old(w.Model())
      ensures old(instance) == null ==>
        fresh(log) && (log.Model(), w.Model()) == InitialStep(old(w.Model()), clock, canOpen)
    {
      if instance == null {
        instance := new CLog(w, clock, canOpen);
      }
      log := instance;
    }

    /** `log_trace(...)` */
    method Trace(msg: string, w: World, env: Env)
      requires Valid(w) && ValidTm(env.now) && ValidTm(env.clock)
      modifies this, instance, w
      ensures instance != null && Valid(w)
      ensures old(instance) != null ==> instance == old(instance)
      ensures old(instance) == null ==> fresh(instance)
      ensures (instance.Model(), w.Model()) == MacroStep(old(Instance()), old(w.Model()), TRACE, msg, env)
    {
      var log := Ins(w, env.clock, env.canOpen);
      log.LogLog(TRACE, msg, w, env);
    }

    /** `log_debug(...)` */
    method Debug(msg: string, w: World, env: Env)
      requires Valid(w) && ValidTm(env.now) && ValidTm(env.clock)
      modifies this, instance, w
      ensures instance != null && Valid(w)
      ensures old(instance) != null ==> instance == old(instance)
      ensures old(instance) == null ==> fresh(instance)
      ensures (instance.Model(), w.Model()) == MacroStep(old(Instance()), old(w.Model()), DEBUG, msg, env)
    {
      var log := Ins(w, env.clock, env.canOpen);
      log.LogLog(DEBUG, msg, w, env);
    }

    /** `log_info(...)` */
    method Info(msg: string, w: World, env: Env)
      requires Valid(w) && ValidTm(env.now) && ValidTm(env.clock)
      modifies this, instance, w
      ensures instance != null && Valid(w)
      ensures old(instance) != null ==> instance == old(instance)
      ensures old(instance) == null ==> fresh(instance)
      ensures (instance.Model(), w.Model()) == MacroStep(old(Instance()), old(w.Model()), INFO, msg, env)
    {
      var log := Ins(w, env.clock, env.canOpen);
      log.LogLog(INFO, msg, w, env);
    }

    /** `log_warn(...)` */
    method Warn(msg: string, w: World, env: Env)
      requires Valid(w) && ValidTm(env.now) && ValidTm(env.clock)
      modifies this, instance, w
      ensures instance != null && Valid(w)
      ensures old(instance) != null ==> instance == old(instance)
      ensures old(instance) == null ==> fresh(instance)
      ensures (instance.Model(), w.Model()) == MacroStep(old(Instance()), old(w.Model()), WARN, msg, env)
    {
      var log := Ins(w, env.clock, env.canOpen);
      log.LogLog(WARN, msg, w, env);
    }

    /** `log_error(...)` */
    method Error(msg: string, w: World, env: Env)
      requires Valid(w) && ValidTm(env.now) && ValidTm(env.clock)
      modifies this, instance, w
      ensures instance != null && Valid(w)
      ensures old(instance) != null ==> instance == old(instance)
      ensures old(instance) == null ==> fresh(instance)
      ensures (instance.Model(), w.Model()) == MacroStep(old(Instance()), old(w.Model()), ERROR, msg, env)
    {
      var log := Ins(w, env.clock, env.canOpen);
      log.LogLog(ERROR, msg, w, env);
    }

    /** `log_fatal(...)` */
    method Fatal(msg: string, w: World, env: Env)
      requires Valid(w) && ValidTm(env.now) && ValidTm(env.clock)
      modifies this, instance, w
      ensures instance != null && Valid(w)
      ensures old(instance) != null ==> instance == old(instance)
      ensures old(instance) == null ==> fresh(instance)
      ensures (instance.Model(), w.Model()) == MacroStep(old(Instance()), old(w.Model()), FATAL, msg, env)
    {
      var log := Ins(w, env.clock, env.canOpen);
      log.LogLog(FATAL, msg, w, env);
    }
  }
}
