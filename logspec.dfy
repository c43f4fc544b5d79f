/** Snapshots of the logger's fields and of what it touches outside itself
    (the file system, the `struct tm` that `localtime` fills, and the ordered
    trace of lock calls, console lines and file operations), and one function
    per state-changing step of the file, console and lock logic giving the
    state after it. The methods of `Clog.CLog` other than the setters and the
    destructor are proved to follow these functions; the properties of the
    logger are stated on them. */
module LogSpec {
  import opened Text
  import opened ClogDefs
  import opened Records

  datatype Option<T> = None | Some(value: T)

  /** The value of a `void*`; 0 is `nullptr`. */
  type Address = nat

  /** A function pointer that is set, so never `nullptr`. */
  type FnPtr = a: nat | a > 0 witness 1

  /** One action of the logger that can be observed from outside, in the
      order it happens. */
  datatype Event =
    | LockCall(fn: FnPtr, udata: Address, lock: int)  // `fn(udata, lock)`: 1 acquires, 0 releases
    | Stderr(line: string)                            // one line written to stderr
    | Opened(path: string)                            // a successful `fopen` of a log file
    | Closed(path: string)                            // an `fclose` of the open log file
    | Appended(path: string, line: string)            // one line written through the open handle

  /** The fields of a `CLog`. The file handle is represented by the path it
      was opened on; `None` is a null `FILE*`, as is `None` for the lock. */
  datatype CLogState = CLogState(
    udata: Address,
    lock: Option<FnPtr>,
    fp: Option<string>,
    level: int,
    quiet: bool,
    filename: string,
    domType: DomType,
    lastDay: int)

  /** What the logger changes outside itself: the files (path to the lines
      in it), the single `struct tm` that every `localtime` call fills and
      returns a pointer to, and the trace of events. */
  datatype WorldState = WorldState(
    files: map<string, seq<string>>,
    localTm: Tm,
    events: seq<Event>)

  /** What one logging call reads from its environment: the local time read
      before formatting (`now`), the local time read when a new file name is
      made (`clock`), what `get_file_size` returns for a path, and whether
      `fopen` succeeds for a path. */
  datatype Env = Env(now: Tm, clock: Tm, fileSize: string -> int, canOpen: string -> bool)

  predicate IsHandleEvent(e: Event) {
    e.Opened? || e.Closed?
  }

  /** The handle left open by a trace: the path of its last `fopen`,
      unless an `fclose` came after it. */
  function Holding(h: seq<Event>): Option<string>
  {
    if h == [] then None
    else match h[|h| - 1]
      case Opened(p) => Some(p)
      case Closed(_) => None
      case _ => Holding(h[..|h| - 1])
  }

  /** At most one file is open at a time: every `fopen` happens with no
      handle open, and every `fclose` closes the handle that is open. */
  predicate OneAtATime(h: seq<Event>)
  {
    h == [] ||
    (OneAtATime(h[..|h| - 1]) &&
     match h[|h| - 1]
     case Opened(_) => Holding(h[..|h| - 1]) == None
     case Closed(p) => Holding(h[..|h| - 1]) == Some(p)
     case _ => true)
  }

  lemma CloseKeepsOneAtATime(h: seq<Event>, p: string)
    requires OneAtATime(h) && Holding(h) == Some(p)
    ensures OneAtATime(h + [Closed(p)]) && Holding(h + [Closed(p)]) == None
  {
    assert (h + [Closed(p)])[..|h|] == h;
  }

  lemma OpenKeepsOneAtATime(h: seq<Event>, p: string)
    requires OneAtATime(h) && Holding(h) == None
    ensures OneAtATime(h + [Opened(p)]) && Holding(h + [Opened(p)]) == Some(p)
  {
    assert (h + [Opened(p)])[..|h|] == h;
  }

  /** Lock calls, console lines and file writes leave the handle
      discipline as it was. */
  lemma {:induction false} QuietEventsKeepHandles(h: seq<Event>, extra: seq<Event>)
    requires forall i | 0 <= i < |extra| :: !IsHandleEvent(extra[i])
    ensures Holding(h + extra) == Holding(h) && OneAtATime(h + extra) == OneAtATime(h)
    decreases |extra|
  {
    if extra == [] {
      assert h + extra == h;
    } else {
      var init := extra[..|extra| - 1];
      QuietEventsKeepHandles(h, init);
      assert (h + extra)[..|h + extra| - 1] == h + init;
      assert (h + extra)[|h + extra| - 1] == extra[|extra| - 1];
    }
  }

  /** What the console shows: the lines of the trace's `Stderr` events. */
  function StderrLines(h: seq<Event>): seq<string>
  {
    if h == [] then []
    else StderrLines(h[..|h| - 1]) + match h[|h| - 1] { case Stderr(line) => [line] case _ => [] }
  }

  lemma {:induction false} StderrLinesAppend(a: seq<Event>, b: seq<Event>)
    ensures StderrLines(a + b) == StderrLines(a) + StderrLines(b)
    decreases |b|
  {
    if b == [] {
      assert a + b == a;
    } else {
      var init := b[..|b| - 1];
      StderrLinesAppend(a, init);
      assert (a + b)[..|a + b| - 1] == a + init;
      assert (a + b)[|a + b| - 1] == b[|b| - 1];
    }
  }

  lemma {:induction false} NoStderrLines(h: seq<Event>)
    requires forall i | 0 <= i < |h| :: !h[i].Stderr?
    ensures StderrLines(h) == []
    decreases |h|
  {
    if h != [] {
      NoStderrLines(h[..|h| - 1]);
    }
  }

  /** The handle `fp` is the one open in the world and refers to `filename`,
      which exists. */
  predicate HandleInv(s: CLogState, w: WorldState)
  {
    && OneAtATime(w.events)
    && s.fp == Holding(w.events)
    && (s.fp.Some? ==> s.fp.value == s.filename && s.filename in w.files)
  }

  /** The invariant of a constructed logger: the handle invariant, and the
      current file name is never empty. */
  predicate Inv(s: CLogState, w: WorldState)
  {
    HandleInv(s, w) && s.filename != ""
  }

  /** The field values set by the constructor's initialiser list. They hold
      no handle and no file name yet, so they are never a constructed
      logger: the handle invariant holds exactly when no file is open. */
  function Defaults(): (r: CLogState)
    ensures forall w :: !Inv(r, w)
    ensures forall w :: HandleInv(r, w) <==> OneAtATime(w.events) && Holding(w.events) == None
  {
    CLogState(0, None, None, TRACE, false, "", DomDate, -1)
  }

  function LockEvents(s: CLogState, lock: int): seq<Event>
  {
    if s.lock.Some? then [LockCall(s.lock.value, s.udata, lock)] else []
  }

  function ConsoleEvents(s: CLogState, line: string): seq<Event>
  {
    if s.quiet then [] else [Stderr(line)]
  }

  /** `fclose` of the handle `s` holds, then `fopen` of the file `s'` holds. */
  function ReopenEvents(s: CLogState, s': CLogState): seq<Event>
  {
    (if s.fp.Some? then [Closed(s.fp.value)] else []) + (if s'.fp.Some? then [Opened(s'.filename)] else [])
  }

  function AppendEvents(s: CLogState, line: string): seq<Event>
  {
    if s.fp.Some? then [Appended(s.fp.value, line)] else []
  }

  /** `lock()`: the callback, if set, is called with the stored user data
      and 1; no file, handle or time changes. */
  function AcquireStep(s: CLogState, w: WorldState): (r: WorldState)
    ensures r.files == w.files && r.localTm == w.localTm
    ensures Holding(r.events) == Holding(w.events) && OneAtATime(r.events) == OneAtATime(w.events)
    ensures StderrLines(r.events) == StderrLines(w.events)
  {
    QuietEventsKeepHandles(w.events, LockEvents(s, 1));
    StderrLinesAppend(w.events, LockEvents(s, 1));
    NoStderrLines(LockEvents(s, 1));
    w.(events := w.events + LockEvents(s, 1))
  }

  /** `unlock()`: the callback, if set, is called with the stored user data
      and 0; no file, handle or time changes. */
  function ReleaseStep(s: CLogState, w: WorldState): (r: WorldState)
    ensures r.files == w.files && r.localTm == w.localTm
    ensures Holding(r.events) == Holding(w.events) && OneAtATime(r.events) == OneAtATime(w.events)
    ensures StderrLines(r.events) == StderrLines(w.events)
  {
    QuietEventsKeepHandles(w.events, LockEvents(s, 0));
    StderrLinesAppend(w.events, LockEvents(s, 0));
    NoStderrLines(LockEvents(s, 0));
    w.(events := w.events + LockEvents(s, 0))
  }

  /** `open_new_file()`: close the open handle, if any, then name the file
      after `clock` (a `localtime` call, which refills the shared
      `struct tm`) and open it for appending. */
  function OpenNewFileStep(s: CLogState, w: WorldState, clock: Tm, canOpen: string -> bool): (r: (CLogState, WorldState))
    requires ValidTm(clock)
    ensures r.0 == s.(fp := r.0.fp, filename := FileName(clock))
    ensures r.0.fp == if canOpen(FileName(clock)) then Some(FileName(clock)) else None
    ensures r.1.events == w.events + ReopenEvents(s, r.0)
    ensures r.1.localTm == clock
    ensures r.1.files == if r.0.fp.Some? && FileName(clock) !in w.files then w.files[FileName(clock) := []] else w.files
    ensures HandleInv(s, w) ==> Inv(r.0, r.1)
  {
    var closed := if s.fp.Some? then w.events + [Closed(s.fp.value)] else w.events;
    var name := FileName(clock);
    FileNameShape(clock);
    assert HandleInv(s, w) ==> OneAtATime(closed) && Holding(closed) == None by {
      if HandleInv(s, w) && s.fp.Some? {
        CloseKeepsOneAtATime(w.events, s.fp.value);
      }
    }
    if canOpen(name) then
      var files := if name in w.files then w.files else w.files[name := []];
      var withOpen := closed + [Opened(name)];
      assert HandleInv(s, w) ==> OneAtATime(withOpen) && Holding(withOpen) == Some(name) by {
        if HandleInv(s, w) { OpenKeepsOneAtATime(closed, name); }
      }
      (s.(fp := Some(name), filename := name), WorldState(files, clock, withOpen))
    else
      (s.(fp := None, filename := name), w.(localTm := clock, events := closed))
  }

  /** `is_newlog_required()`, as written: true when there is no file name;
      under DOM_SIZE, true when the file is larger than the threshold; under
      DOM_DATE, true when the current MINUTE differs from `lastDay`, which
      is then set to the current DAY of the month. Only `lastDay` may
      change. */
  function NewlogStep(s: CLogState, clock: Tm, fileSize: string -> int): (r: (bool, CLogState))
    ensures r.1 == s.(lastDay := r.1.lastDay)
    ensures s.filename == "" ==> r == (true, s)
    ensures s.filename != "" && s.domType == DomSize ==> r == (fileSize(s.filename) > MAX_LOG_FILE_SIZE, s)
    ensures s.filename != "" && s.domType == DomDate ==>
      r.0 == (clock.min != s.lastDay) && r.1.lastDay == if r.0 then clock.mday else s.lastDay
  {
    if s.filename == "" then (true, s)
    else match s.domType
      case DomSize => (fileSize(s.filename) > MAX_LOG_FILE_SIZE, s)
      case DomDate =>
        if clock.min != s.lastDay then (true, s.(lastDay := clock.mday)) else (false, s)
  }

  /** The console sink: the line goes to stderr unless quiet; no file,
      handle or time changes. */
  function EmitStep(s: CLogState, w: WorldState, line: string): (r: WorldState)
    ensures r.files == w.files && r.localTm == w.localTm
    ensures Holding(r.events) == Holding(w.events) && OneAtATime(r.events) == OneAtATime(w.events)
    ensures StderrLines(r.events) == StderrLines(w.events) + if s.quiet then [] else [line]
  {
    QuietEventsKeepHandles(w.events, ConsoleEvents(s, line));
    StderrLinesAppend(w.events, ConsoleEvents(s, line));
    assert [Stderr(line)][..0] == [];
    w.(events := w.events + ConsoleEvents(s, line))
  }

  /** The first part of a passing `log_log`: `lock()`, the time read into
      the shared `struct tm`, and the console line formatted from it. */
  function EchoStep(s: CLogState, w: WorldState, level: Level, msg: string, now: Tm): (r: WorldState)
    requires ValidTm(now)
    ensures r.files == w.files && r.localTm == now
    ensures HandleInv(s, w) ==> HandleInv(s, r)
    ensures r.events == w.events + LockEvents(s, 1) + ConsoleEvents(s, ConsoleLine(now, level, msg))
  {
    var w1 := AcquireStep(s, w).(localTm := now);
    EmitStep(s, w1, ConsoleLine(w1.localTm, level, msg))
  }

  /** The rotation check of `log_log`: a new file when the current one is
      larger than the threshold. */
  function RotateStep(s: CLogState, w: WorldState, env: Env): (r: (CLogState, WorldState))
    requires ValidTm(env.clock)
    ensures env.fileSize(s.filename) <= MAX_LOG_FILE_SIZE ==> r == (s, w)
    ensures r.1.events == w.events + if env.fileSize(s.filename) > MAX_LOG_FILE_SIZE then ReopenEvents(s, r.0) else []
    ensures r.1.localTm == if env.fileSize(s.filename) > MAX_LOG_FILE_SIZE then env.clock else w.localTm
    ensures HandleInv(s, w) ==>
      r.1.files == if r.0.fp.Some? && r.0.filename !in w.files then w.files[r.0.filename := []] else w.files
    ensures Inv(s, w) ==> Inv(r.0, r.1)
  {
    if env.fileSize(s.filename) > MAX_LOG_FILE_SIZE then
      OpenNewFileStep(s, w, env.clock, env.canOpen)
    else
      assert w.events + [] == w.events;
      (s, w)
  }

  /** The file sink: the line is appended through the open handle, if any. */
  function WriteStep(s: CLogState, w: WorldState, line: string): (r: WorldState)
    requires HandleInv(s, w)
    ensures r.localTm == w.localTm
    ensures r.events == w.events + AppendEvents(s, line)
    ensures r.files == if s.fp.Some? then w.files[s.filename := w.files[s.filename] + [line]] else w.files
    ensures HandleInv(s, r)
  {
    QuietEventsKeepHandles(w.events, AppendEvents(s, line));
    if s.fp.Some? then
      w.(files := w.files[s.fp.value := w.files[s.fp.value] + [line]], events := w.events + AppendEvents(s, line))
    else
      assert w.events + [] == w.events;
      w
  }

  /** `log_log(level, msg)`: the level filter, then, between acquiring and
      releasing the lock, the time read and the console sink, the size check
      that may open a new file, and the file sink. The file line is
      formatted from the shared `struct tm`, which `open_new_file` refills
      when it runs. Its properties are the lemmas below. */
  function LogStep(s: CLogState, w: WorldState, level: Level, msg: string, env: Env): (r: (CLogState, WorldState))
    requires Inv(s, w) && ValidTm(env.now) && ValidTm(env.clock)
    ensures Inv(r.0, r.1)
  {
    if level < s.level then (s, w)
    else
      var w1 := EchoStep(s, w, level, msg, env.now);
      var (s2, w2) := RotateStep(s, w1, env);
      var w3 := WriteStep(s2, w2, FileLine(w2.localTm, level, msg));
      (s2, ReleaseStep(s2, w3))
  }

  /** The time a passing record's file line carries. `log_log` formats it
      from the `struct tm` its own `localtime` call filled, but when the size
      check opens a new file, naming that file calls `localtime` again and
      refills the same struct with the later time. */
  function FileStamp(s: CLogState, env: Env): (t: Tm)
    requires ValidTm(env.now) && ValidTm(env.clock)
    ensures ValidTm(t) && (t == env.now || t == env.clock)
    ensures env.fileSize(s.filename) <= MAX_LOG_FILE_SIZE ==> t == env.now
  {
    if env.fileSize(s.filename) > MAX_LOG_FILE_SIZE then env.clock else env.now
  }

  /** The composition of steps that `LogStep` performs for a record that
      passes the filter. */
  lemma LogStepUnfold(s: CLogState, w: WorldState, level: Level, msg: string, env: Env)
    requires Inv(s, w) && ValidTm(env.now) && ValidTm(env.clock)
    requires level >= s.level
    ensures var w1 := EchoStep(s, w, level, msg, env.now);
      HandleInv(s, w1) &&
      var r2 := RotateStep(s, w1, env);
      Inv(r2.0, r2.1) && ValidTm(r2.1.localTm) &&
      LogStep(s, w, level, msg, env) == (r2.0, ReleaseStep(r2.0, WriteStep(r2.0, r2.1, FileLine(r2.1.localTm, level, msg))))
  {
  }

  /** A record below the logger's level has no effect at all: no lock
      call, no console line, no size check, no file change. */
  lemma LogBelowLevel(s: CLogState, w: WorldState, level: Level, msg: string, env: Env)
    requires Inv(s, w) && ValidTm(env.now) && ValidTm(env.clock)
    requires level < s.level
    ensures LogStep(s, w, level, msg, env) == (s, w)
  {
  }

  /** The exact trace of a record that passes the filter: the acquire call,
      the console line, the close and open of a rotation, the file line
      (stamped with the time the shared `struct tm` holds last), the
      release call. */
  lemma LogEvents(s: CLogState, w: WorldState, level: Level, msg: string, env: Env)
    requires Inv(s, w) && ValidTm(env.now) && ValidTm(env.clock)
    requires level >= s.level
    ensures var r := LogStep(s, w, level, msg, env);
      var rotate := env.fileSize(s.filename) > MAX_LOG_FILE_SIZE;
      var stamp := FileStamp(s, env);
      r.1.events == w.events + LockEvents(s, 1) + ConsoleEvents(s, ConsoleLine(env.now, level, msg))
        + (if rotate then ReopenEvents(s, r.0) else [])
        + AppendEvents(r.0, FileLine(stamp, level, msg)) + LockEvents(s, 0)
  {
    LogStepUnfold(s, w, level, msg, env);
    LogKeepsConfiguration(s, w, level, msg, env);
  }

  /** Everything a passing record does happens inside the lock bracket: the
      trace it adds begins with the acquire call and ends with the release
      call, both with the stored user data, and no other event of it is a
      lock call; with no callback there are no lock calls at all. */
  lemma LogLockBracket(s: CLogState, w: WorldState, level: Level, msg: string, env: Env)
    requires Inv(s, w) && ValidTm(env.now) && ValidTm(env.clock)
    requires level >= s.level
    ensures var r := LogStep(s, w, level, msg, env);
      var e := r.1.events[|w.events|..];
      && |w.events| <= |r.1.events| && r.1.events[..|w.events|] == w.events
      && (s.lock.Some? ==>
            |e| >= 2 && e[0] == LockCall(s.lock.value, s.udata, 1) && e[|e| - 1] == LockCall(s.lock.value, s.udata, 0))
      && forall i | (if s.lock.Some? then 0 < i < |e| - 1 else 0 <= i < |e|) :: !e[i].LockCall?
  {
    var r := LogStep(s, w, level, msg, env);
    var rotate := env.fileSize(s.filename) > MAX_LOG_FILE_SIZE;
    LogEvents(s, w, level, msg, env);
    BracketOfTrace(r.1.events, s, r.0, w.events, ConsoleLine(env.now, level, msg),
      FileLine(FileStamp(s, env), level, msg), rotate);
  }

  lemma BracketOfTrace(h: seq<Event>, s: CLogState, s': CLogState, w: seq<Event>, line: string, fileLine: string, rotate: bool)
    requires h == w + LockEvents(s, 1) + ConsoleEvents(s, line)
      + (if rotate then ReopenEvents(s, s') else []) + AppendEvents(s', fileLine) + LockEvents(s, 0)
    ensures var e := h[|w|..];
      && |w| <= |h| && h[..|w|] == w
      && (s.lock.Some? ==>
            |e| >= 2 && e[0] == LockCall(s.lock.value, s.udata, 1) && e[|e| - 1] == LockCall(s.lock.value, s.udata, 0))
      && forall i | (if s.lock.Some? then 0 < i < |e| - 1 else 0 <= i < |e|) :: !e[i].LockCall?
  {
    Bracketed(w, LockEvents(s, 1), ConsoleEvents(s, line),
      if rotate then ReopenEvents(s, s') else [], AppendEvents(s', fileLine), LockEvents(s, 0));
  }

  /** A trace made of a prefix, an opening part, three parts without lock
      calls and a closing part has lock calls only in the opening and
      closing parts. */
  lemma Bracketed(w: seq<Event>, open: seq<Event>, c: seq<Event>, rot: seq<Event>, app: seq<Event>, close: seq<Event>)
    requires forall i | 0 <= i < |c| :: !c[i].LockCall?
    requires forall i | 0 <= i < |rot| :: !rot[i].LockCall?
    requires forall i | 0 <= i < |app| :: !app[i].LockCall?
    ensures var h := w + open + c + rot + app + close;
      && |w| <= |h| && h[..|w|] == w
      && var e := h[|w|..];
      && |e| == |open| + |c| + |rot| + |app| + |close|
      && (forall i | 0 <= i < |open| :: e[i] == open[i])
      && (forall i | 0 <= i < |close| :: e[|e| - |close| + i] == close[i])
      && forall i | |open| <= i < |e| - |close| :: !e[i].LockCall?
  {
    var h := w + open + c + rot + app + close;
    var e := h[|w|..];
    assert e == open + c + rot + app + close;
    forall i | |open| <= i < |e| - |close|
      ensures !e[i].LockCall?
    {
      var k := i - |open|;
      if k < |c| {
        assert e[i] == c[k];
      } else if k < |c| + |rot| {
        assert e[i] == rot[k - |c|];
      } else {
        assert e[i] == app[k - |c| - |rot|];
      }
    }
  }

  /** A record that passes the filter shows exactly one line on the
      console, unless the logger is quiet, in which case it shows none. */
  lemma LogConsole(s: CLogState, w: WorldState, level: Level, msg: string, env: Env)
    requires Inv(s, w) && ValidTm(env.now) && ValidTm(env.clock)
    requires level >= s.level
    ensures var r := LogStep(s, w, level, msg, env);
      StderrLines(r.1.events) == StderrLines(w.events) + if s.quiet then [] else [ConsoleLine(env.now, level, msg)]
  {
    var r := LogStep(s, w, level, msg, env);
    var rotate := env.fileSize(s.filename) > MAX_LOG_FILE_SIZE;
    LogEvents(s, w, level, msg, env);
    ConsoleOfTrace(r.1.events, s, r.0, w.events, ConsoleLine(env.now, level, msg),
      FileLine(FileStamp(s, env), level, msg), rotate);
  }

  lemma ConsoleOfTrace(h: seq<Event>, s: CLogState, s': CLogState, w: seq<Event>, line: string, fileLine: string, rotate: bool)
    requires h == w + LockEvents(s, 1) + ConsoleEvents(s, line)
      + (if rotate then ReopenEvents(s, s') else []) + AppendEvents(s', fileLine) + LockEvents(s, 0)
    ensures StderrLines(h) == StderrLines(w) + if s.quiet then [] else [line]
  {
    var c := ConsoleEvents(s, line);
    SilentParts(s, s', 1, fileLine);
    SilentParts(s, s', 0, fileLine);
    ConsoleOnly(w, LockEvents(s, 1), c, if rotate then ReopenEvents(s, s') else [], AppendEvents(s', fileLine), LockEvents(s, 0));
    if !s.quiet {
      assert c[..0] == [];
    }
  }

  /** Of a trace made of a prefix and five parts, the console shows the
      prefix's lines and the lines of the one part that writes to it. */
  lemma ConsoleOnly(w: seq<Event>, open: seq<Event>, c: seq<Event>, rot: seq<Event>, app: seq<Event>, close: seq<Event>)
    requires StderrLines(open) == [] && StderrLines(rot) == [] && StderrLines(app) == [] && StderrLines(close) == []
    ensures StderrLines(w + open + c + rot + app + close) == StderrLines(w) + StderrLines(c)
  {
    AppendSilent(w, open);
    StderrLinesAppend(w + open, c);
    AppendSilent(w + open + c, rot);
    AppendSilent(w + open + c + rot, app);
    AppendSilent(w + open + c + rot + app, close);
  }

  lemma AppendSilent(a: seq<Event>, b: seq<Event>)
    requires StderrLines(b) == []
    ensures StderrLines(a + b) == StderrLines(a)
  {
    StderrLinesAppend(a, b);
  }

  /** Lock calls, file operations and file writes show nothing on the
      console. */
  lemma SilentParts(s: CLogState, s': CLogState, lock: int, line: string)
    ensures StderrLines(LockEvents(s, lock)) == []
    ensures StderrLines(ReopenEvents(s, s')) == []
    ensures StderrLines(AppendEvents(s', line)) == []
  {
    if s.lock.Some? { OneSilent(LockCall(s.lock.value, s.udata, lock)); }
    if s.fp.Some? { OneSilent(Closed(s.fp.value)); }
    if s'.fp.Some? {
      OneSilent(Opened(s'.filename));
      OneSilent(Appended(s'.fp.value, line));
    }
    StderrLinesAppend(if s.fp.Some? then [Closed(s.fp.value)] else [], if s'.fp.Some? then [Opened(s'.filename)] else []);
  }

  lemma OneSilent(e: Event)
    requires !e.Stderr?
    ensures StderrLines([e]) == []
  {
    assert [e][..0] == [];
  }

  /** Logging changes no configuration field: only the handle and the file
      name may change. */
  lemma LogKeepsConfiguration(s: CLogState, w: WorldState, level: Level, msg: string, env: Env)
    requires Inv(s, w) && ValidTm(env.now) && ValidTm(env.clock)
    ensures var r := LogStep(s, w, level, msg, env);
      r.0 == s.(fp := r.0.fp, filename := r.0.filename)
  {
    if level >= s.level {
      LogStepUnfold(s, w, level, msg, env);
    }
  }

  /** The file is replaced exactly when the current file is larger than the
      threshold: it is then named after the clock and open when `fopen`
      succeeds; otherwise the logger's state stays as it was. */
  lemma LogRotation(s: CLogState, w: WorldState, level: Level, msg: string, env: Env)
    requires Inv(s, w) && ValidTm(env.now) && ValidTm(env.clock)
    requires level >= s.level
    ensures var r := LogStep(s, w, level, msg, env);
      if env.fileSize(s.filename) > MAX_LOG_FILE_SIZE then
        && r.0.filename == FileName(env.clock)
        && r.0.fp == (if env.canOpen(FileName(env.clock)) then Some(FileName(env.clock)) else None)
      else
        r.0 == s
  {
    LogStepUnfold(s, w, level, msg, env);
  }

  /** With a handle open after the size check, exactly one file line is
      appended to the current file (created empty if it did not exist) and
      no other file changes; with no handle, no file changes. After a
      rotation the line carries the time read for the new file's name,
      because that read refilled the `struct tm` the stamp is formatted
      from. */
  lemma LogFile(s: CLogState, w: WorldState, level: Level, msg: string, env: Env)
    requires Inv(s, w) && ValidTm(env.now) && ValidTm(env.clock)
    requires level >= s.level
    ensures var r := LogStep(s, w, level, msg, env);
      var stamp := FileStamp(s, env);
      if r.0.fp.Some? then
        var before := if r.0.filename in w.files then w.files[r.0.filename] else [];
        r.1.files == w.files[r.0.filename := before + [FileLine(stamp, level, msg)]]
      else
        r.1.files == w.files
  {
    var w1 := EchoStep(s, w, level, msg, env.now);
    var r2 := RotateStep(s, w1, env);
    LogStepUnfold(s, w, level, msg, env);
    if r2.0.fp.Some? {
      var name := r2.0.filename;
      if name !in w.files {
        assert [] + [FileLine(r2.1.localTm, level, msg)] == [FileLine(r2.1.localTm, level, msg)];
        UpdateTwice(w.files, name, [], [FileLine(r2.1.localTm, level, msg)]);
      }
    }
  }

  lemma UpdateTwice<K, V>(m: map<K, V>, k: K, a: V, b: V)
    ensures m[k := a][k := b] == m[k := b]
  {
  }

  /** A file that a rotation creates starts with the record that caused the
      rotation, stamped with the very time its name encodes. */
  lemma RotatedFileStartsWithItsTime(s: CLogState, w: WorldState, level: Level, msg: string, env: Env)
    requires Inv(s, w) && ValidTm(env.now) && ValidTm(env.clock)
    requires level >= s.level && env.fileSize(s.filename) > MAX_LOG_FILE_SIZE
    requires env.canOpen(FileName(env.clock)) && FileName(env.clock) !in w.files
    ensures var r := LogStep(s, w, level, msg, env);
      && r.0.filename == FileName(env.clock)
      && r.0.filename in r.1.files
      && r.1.files[r.0.filename] == [FileLine(env.clock, level, msg)]
  {
    LogRotation(s, w, level, msg, env);
    LogFile(s, w, level, msg, env);
  }

  /** `log_log` never consults the rotation policy or the day marker: two
      loggers that differ only in those fields log identically and keep
      their own values of them. */
  lemma LogIgnoresRotationPolicy(s: CLogState, w: WorldState, level: Level, msg: string, env: Env, dom: DomType, day: int)
    requires Inv(s, w) && ValidTm(env.now) && ValidTm(env.clock)
    ensures var r := LogStep(s, w, level, msg, env);
      var r' := LogStep(s.(domType := dom, lastDay := day), w, level, msg, env);
      r'.1 == r.1 && r'.0 == r.0.(domType := dom, lastDay := day)
  {
    var s' := s.(domType := dom, lastDay := day);
    if level >= s.level {
      LogStepUnfold(s, w, level, msg, env);
      LogStepUnfold(s', w, level, msg, env);
      var w1 := EchoStep(s, w, level, msg, env.now);
      assert EchoStep(s', w, level, msg, env.now) == w1;
      RotateIgnoresRotationPolicy(s, w1, env, dom, day);
    }
  }

  lemma RotateIgnoresRotationPolicy(s: CLogState, w: WorldState, env: Env, dom: DomType, day: int)
    requires ValidTm(env.clock)
    ensures var r := RotateStep(s, w, env);
      var r' := RotateStep(s.(domType := dom, lastDay := day), w, env);
      r'.1 == r.1 && r'.0 == r.0.(domType := dom, lastDay := day)
  {
  }

  /** Under DOM_DATE the check compares the minute with the stored day: two
      checks on the same day both ask for a new file whenever the second
      one's minute differs from that day of the month. */
  lemma DateCheckFiresTwiceInOneDay(s: CLogState, clock: Tm, later: Tm, fileSize: string -> int)
    requires s.filename != "" && s.domType == DomDate
    requires clock.min != s.lastDay && later.mday == clock.mday && later.min != clock.mday
    ensures NewlogStep(s, clock, fileSize).0
    ensures NewlogStep(s, clock, fileSize).1.lastDay == clock.mday
    ensures NewlogStep(NewlogStep(s, clock, fileSize).1, later, fileSize).0
  {
  }

  /** ... and a check on a new day does not ask for a new file when its
      minute happens to equal the stored day. */
  lemma DateCheckMissesNewDay(s: CLogState, clock: Tm, fileSize: string -> int)
    requires s.filename != "" && s.domType == DomDate
    requires clock.mday != s.lastDay && clock.min == s.lastDay
    ensures NewlogStep(s, clock, fileSize) == (false, s)
  {
  }

  /** With the minimum level at INFO and the console on, a DEBUG record
      leaves everything as it was, and the INFO record that follows shows
      `[ HH:MM:SS INFO  ] y=5` on the console and, when a handle is open,
      writes `stamp INFO : y=5` to the file, stamped with the clock read for
      the new file's name when the record caused a rotation. */
  lemma InfoScenario(s: CLogState, w: WorldState, env: Env)
    requires Inv(s, w) && ValidTm(env.now) && ValidTm(env.clock)
    requires s.level == INFO && !s.quiet
    ensures LogStep(s, w, DEBUG, "x", env) == (s, w)
    ensures var r := LogStep(s, w, INFO, "y=5", env);
      var stamp := FileStamp(s, env);
      && StderrLines(r.1.events) == StderrLines(w.events) + ["[ " + ClockText(env.now) + " INFO  ] y=5\n"]
      && (r.0.fp.Some? ==>
            r.1.files[r.0.filename][|r.1.files[r.0.filename]| - 1] == StampText(stamp) + " INFO : y=5\n")
  {
    LogBelowLevel(s, w, DEBUG, "x", env);
    LogConsole(s, w, INFO, "y=5", env);
    InfoLines(env.now);
    InfoFileLine(s, w, env);
  }

  lemma InfoFileLine(s: CLogState, w: WorldState, env: Env)
    requires Inv(s, w) && ValidTm(env.now) && ValidTm(env.clock)
    requires s.level == INFO
    ensures var r := LogStep(s, w, INFO, "y=5", env);
      var stamp := FileStamp(s, env);
      r.0.fp.Some? ==>
        r.1.files[r.0.filename][|r.1.files[r.0.filename]| - 1] == StampText(stamp) + " INFO : y=5\n"
  {
    LogFile(s, w, INFO, "y=5", env);
    var stamp := FileStamp(s, env);
    var r := LogStep(s, w, INFO, "y=5", env);
    if r.0.fp.Some? {
      var before := if r.0.filename in w.files then w.files[r.0.filename] else [];
      InfoLastLine(r.1.files, w.files, r.0.filename, before, stamp);
    }
  }

  lemma InfoLastLine(m: map<string, seq<string>>, files: map<string, seq<string>>, name: string, before: seq<string>, t: Tm)
    requires ValidTm(t) && m == files[name := before + [FileLine(t, INFO, "y=5")]]
    ensures name in m && |m[name]| > 0 && m[name][|m[name]| - 1] == StampText(t) + " INFO : y=5\n"
  {
    InfoLines(t);
  }

  lemma InfoLines(t: Tm)
    requires ValidTm(t)
    ensures ConsoleLine(t, INFO, "y=5") == "[ " + ClockText(t) + " INFO  ] y=5\n"
    ensures FileLine(t, INFO, "y=5") == StampText(t) + " INFO : y=5\n"
  {
    StampsFit(t);
    assert LevelField(INFO) == "INFO ";
  }

  /** The logger right after construction: the initialiser-list values, a
      file named after the clock opened when possible, and nothing else
      happened. */
  function InitialStep(w: WorldState, clock: Tm, canOpen: string -> bool): (r: (CLogState, WorldState))
    requires ValidTm(clock) && HandleInv(Defaults(), w)
    ensures r.0.level == TRACE && !r.0.quiet && r.0.lock == None && r.0.udata == 0
    ensures r.0.domType == DomDate && r.0.lastDay == -1
    ensures r.0.filename == FileName(clock) && r.0.filename != ""
    ensures r.0.fp == if canOpen(FileName(clock)) then Some(FileName(clock)) else None
    ensures r.1.events == w.events + if r.0.fp.Some? then [Opened(FileName(clock))] else []
    ensures r.1.localTm == clock
    ensures r.1.files == if r.0.fp.Some? && FileName(clock) !in w.files then w.files[FileName(clock) := []] else w.files
    ensures Inv(r.0, r.1)
  {
    OpenNewFileStep(Defaults(), w, clock, canOpen)
  }

  /** One of the six leveled macros: `CLog::ins()` (constructing the single
      instance on first use) followed by `log_log` at that level. The
      invariant holds afterwards; an existing instance keeps its
      configuration; on first use the configuration is the initialiser
      list's, so no record is dropped and every one reaches the console. */
  function MacroStep(instance: Option<CLogState>, w: WorldState, level: Level, msg: string, env: Env): (r: (CLogState, WorldState))
    requires ValidTm(env.now) && ValidTm(env.clock)
    requires instance.None? ==> HandleInv(Defaults(), w)
    requires instance.Some? ==> Inv(instance.value, w)
    ensures Inv(r.0, r.1)
    ensures instance.Some? ==> r.0 == instance.value.(fp := r.0.fp, filename := r.0.filename)
    ensures instance.None? ==>
      && r.0.level == TRACE && !r.0.quiet && r.0.lock == None && r.0.udata == 0
      && r.0.domType == DomDate && r.0.lastDay == -1
      && StderrLines(r.1.events) == StderrLines(w.events) + [ConsoleLine(env.now, level, msg)]
  {
    if instance.Some? then
      LogKeepsConfiguration(instance.value, w, level, msg, env);
      LogStep(instance.value, w, level, msg, env)
    else
      FirstUse(w, level, msg, env);
      LogStep(InitialStep(w, env.clock, env.canOpen).0, InitialStep(w, env.clock, env.canOpen).1, level, msg, env)
  }

  /** The first macro call logs with the initialiser-list configuration:
      every record passes the filter and reaches the console. */
  lemma FirstUse(w: WorldState, level: Level, msg: string, env: Env)
    requires ValidTm(env.now) && ValidTm(env.clock) && HandleInv(Defaults(), w)
    ensures var (s, w0) := InitialStep(w, env.clock, env.canOpen);
      var r := LogStep(s, w0, level, msg, env);
      && r.0.level == TRACE && !r.0.quiet && r.0.lock == None && r.0.udata == 0
      && r.0.domType == DomDate && r.0.lastDay == -1
      && StderrLines(r.1.events) == StderrLines(w.events) + [ConsoleLine(env.now, level, msg)]
  {
    var (s, w0) := InitialStep(w, env.clock, env.canOpen);
    LogKeepsConfiguration(s, w0, level, msg, env);
    LogConsole(s, w0, level, msg, env);
    var withOpen := if s.fp.Some? then [Opened(FileName(env.clock))] else [];
    NoStderrLines(withOpen);
    AppendSilent(w.events, withOpen);
  }
}
