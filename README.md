# CLog: a model of a leveled, rotating file logger

This project is a Dafny model of `CLog`, a logger that exists once per
process. A logging call is dropped when its level is below the configured
minimum. A call that passes the filter goes through these steps:

1. the user's lock callback is called to acquire;
2. the local time is read into the `struct tm` that `localtime` shares across calls;
3. a line `[ HH:MM:SS LEVEL ] message` goes to stderr, unless the logger is quiet;
4. the current log file is replaced with a new one when it is larger than 1024 bytes; naming the new file calls `localtime` again, which refills the same `struct tm` with the later time;
5. a line `YYYY-MM-DD HH:MM:SS LEVEL: message`, stamped from that `struct tm` as it is now, is appended to the open log file, if there is one;
6. the lock callback is called to release.

A new log file is named after the local time in unpadded decimals:
`2024-1-5 9-3-7.trace`.

The model has five modules:

- `Text` holds the character-level pieces:
  - `%d` without padding (`Decimal`), and its inverse;
  - strftime's two-digit fields (`Pad2`);
  - `%-5s` (`PadRight`);
  - what a `strftime` buffer holds when the text does not fit (`Strftime`);
  - splitting at a separator.
- `ClogDefs` holds the constants: from the header, the six levels, the two rotation policies and the 1024-byte threshold; from `clog.cpp`, the table of level names.
- `Records` builds the console line, the file line and the file name from a `struct tm`. It proves their layouts and that the file name can be read back, so distinct seconds give distinct names.
- `LogSpec` holds snapshots of the logger's fields (`CLogState`) and of what the logger changes outside itself (`WorldState`):
  - files as path → lines;
  - the shared `struct tm` that `localtime` fills (`localTm`);
  - one ordered trace of events: lock-callback calls, lines on stderr, `fopen` and `fclose`, and lines written to a file.

  It also holds one function per state-changing step of the file, console and lock logic (`OpenNewFileStep`, `NewlogStep`, `LogStep` and the steps it is built from, `InitialStep`, `MacroStep`) that gives the next state. The logger's properties are lemmas about these functions. The invariant `Inv` says three things:
  - at most one file handle is open at a time, and every close closes the open handle (`OneAtATime`);
  - the handle refers to the current file name, which exists;
  - the current file name is never empty.
- `Clog` holds the imperative model:
  - class `CLog`, with the C++ class's fields, updated in place;
  - class `World`, which holds the files, the shared `struct tm` and the event trace;
  - class `Process`, which holds the static instance behind `CLog::ins()` and the six leveled macros.

  Every method's `ensures` give its exact new state: the setters and `Close` update the old state directly, and the other methods are proved to produce the state that the matching `LogSpec` function gives. The six macros also keep the identity of the single instance.

Each logging call reads its environment from an `Env` value:

- the time `log_log` reads before formatting (`now`);
- the time `current_filename` reads when a new file is named (`clock`);
- what `get_file_size` returns for a path;
- whether `fopen` succeeds for a path.

Two behaviours of the code are modelled as written:

- `log_log` never calls `is_newlog_required`. Rotation is driven only by the plain size check, so the rotation policy and `_last_day` have no effect on logging (`LogIgnoresRotationPolicy`).
- Under DOM_DATE, `is_newlog_required` compares the current minute with `_last_day` but stores the day of the month there, although it looks meant to start a new file once per calendar day. The lemmas `DateCheckFiresTwiceInOneDay` and `DateCheckMissesNewDay` show the effect.

The level column is written with `%-5s`, which pads and never truncates; no level name is longer than five characters.

A file line is stamped from the `struct tm` as it is after the size check. When that check opens a new file, the line carries the time the new file's name was made from, not the time read at the start of `log_log` (`FileStamp`, `LogFile`, `RotatedFileStartsWithItsTime`).

## Model

| member | source | states |
|---|---|---|
| Text.Decimal | src/clog.cpp:107 | `%d` of a non-negative number: non-empty, digits only, and a leading `0` only for zero |
| Text.DecimalRoundTrip | src/clog.cpp:107 | reading the printed digits back gives the number |
| Text.DecimalInjective | src/clog.cpp:107 | different numbers print differently |
| Text.DecimalLengthBelow | src/clog.cpp:106-107 | a number below 10^k prints in at most k digits |
| Text.DecimalLengthExact | src/clog.cpp:183 | a number in [10^(k-1), 10^k) prints in exactly k digits |
| Text.Pad2 | src/clog.cpp:156 | a strftime two-digit field is two digits, and reading them back gives the value |
| Text.Strftime | src/clog.cpp:156 | the buffer holds the whole text or nothing; whatever it holds fits with its terminator; a text shorter than the buffer is kept |
| Text.PadRight | src/clog.cpp:165 | `%-5s`: the width is the larger of the text's length and the field width (5 here); the text comes first, then only spaces; nothing is cut |
| ClogDefs.LevelName | src/clog.cpp:36-38 | every level from TRACE to FATAL indexes `level_names` in bounds and has a name of 4 or 5 characters |
| ClogDefs.LevelNamesDistinct | src/clog.cpp:36-38 | different levels print different names |
| Records.LevelField | src/clog.cpp:184 | the level column is exactly 5 characters: the name, then spaces |
| Records.ClockText | src/clog.cpp:156 | `%H:%M:%S` is 8 characters: zero-padded hour, minute and second separated by `:` |
| Records.StampText | src/clog.cpp:183 | `%Y-%m-%d %H:%M:%S` is 15 characters longer than the printed year |
| Records.StampTextLayout | src/clog.cpp:183 | the file stamp is the year, `-`, the padded month (1-12), `-`, the padded day, a space, then the 8-character clock |
| Records.StampsFit | src/clog.cpp:155-156 | for every valid time, both stamps fit their 16- and 32-character buffers, so strftime never leaves them empty |
| Records.FourDigitYearStamp | src/clog.cpp:183 | with a four-digit year, the file stamp is 19 characters |
| Records.ConsoleLine | src/clog.cpp:165-172 | one console record per line: it ends in a newline and is longer than the message by more than its 7 fixed characters, so the stamp and level column are always there (positions in `ConsoleLineLayout`) |
| Records.ConsoleLineLayout | src/clog.cpp:153-172 | the console line is `[ `, the clock (columns 2-9), a space, the 5-wide level, ` ] `, the message and a newline: 20 characters plus the message |
| Records.FileLine | src/clog.cpp:183-188 | one file record per line: it ends in a newline and is longer than the message by more than 7 characters of stamp, level column and separators (positions in `FileLineLayout`) |
| Records.FileLineLayout | src/clog.cpp:180-188 | the file line is the stamp, a space, the 5-wide level, `: `, the message and a newline |
| Records.FileName | src/clog.cpp:103-109 | a file name has at least 17 characters and ends in `.trace` |
| Records.FileNameRoundTrip | src/clog.cpp:103-109 | splitting a file name at its separators gives back the six unpadded numbers it was made of |
| Records.FileNameInjective | src/clog.cpp:107 | two times that differ in any field give different file names |
| Records.FileNameShape | src/clog.cpp:106-107 | a file name has 17 to 31 characters, so it is non-empty and fits the `MAX_PATH` buffer, and it ends in `.trace` |
| LogSpec.Defaults | src/clog.cpp:56 | the initialiser list's values are never a constructed logger (the file name is empty); they satisfy the handle invariant exactly when no handle is open in the world |
| LogSpec.AcquireStep | src/clog.cpp:67-71 | calling the lock callback touches no file, no handle and no console line, and leaves the `struct tm` alone |
| LogSpec.ReleaseStep | src/clog.cpp:74-78 | the same for the release call |
| LogSpec.EmitStep | src/clog.cpp:153-174 | the console block adds exactly the given line to stderr when not quiet and nothing when quiet; files, handles and the `struct tm` are untouched |
| LogSpec.EchoStep | src/clog.cpp:145-174 | the lock call, the time read into the `struct tm`, then the console line stamped from it; files are untouched and the handle invariant is kept |
| LogSpec.RotateStep | src/clog.cpp:177-179 | within the limit nothing changes; over it, the old handle is closed, the file named after the clock is opened (created empty if missing), and the `struct tm` holds the clock; the invariant is kept |
| LogSpec.WriteStep | src/clog.cpp:180-190 | with a handle, exactly one line is appended to the current file and recorded in the trace; without one, nothing changes; the `struct tm` is untouched and the handle invariant is kept |
| LogSpec.OpenNewFileStep | src/clog.cpp:103-117 | the old handle is closed before the new file is opened; the name comes from the clock, which is left in the shared `struct tm`; the handle is null when `fopen` fails; the file is created empty if missing; no other file or field changes; the invariant is restored |
| LogSpec.NewlogStep | src/clog.cpp:119-137 | true for an empty name; under DOM_SIZE, size > 1024; under DOM_DATE, minute ≠ `_last_day`, and then `_last_day` becomes the day of the month; nothing but `_last_day` changes |
| LogSpec.LogStep | src/clog.cpp:140-194 | logging preserves the invariant: one handle at a time, the handle on the current file, and a non-empty file name |
| LogSpec.LogEvents | src/clog.cpp:140-194 | a passing record adds, in this order: the acquire call, the console line (unless quiet), the close and open of a rotation, the file line through the handle (if any), and the release call |
| LogSpec.LogBelowLevel | src/clog.cpp:141-143 | a record below the minimum level leaves the logger and the world (files, the shared `struct tm`, the event trace) unchanged |
| LogSpec.LogLockBracket | src/clog.cpp:146-193 | with a callback, the events a passing record adds start with the call `(udata, 1)` and end with `(udata, 0)`, and every console, file and handle event lies between them; with no callback there are no calls; earlier events are kept |
| LogSpec.LogConsole | src/clog.cpp:153-174 | a passing record adds exactly one console line, stamped with the time `log_log` read, when not quiet, and none when quiet |
| LogSpec.LogKeepsConfiguration | src/clog.cpp:140-194 | logging changes only the handle and the file name; level, quiet flag, lock, user data, policy and `_last_day` keep their values |
| LogSpec.LogRotation | src/clog.cpp:177-179 | when the current file's size is > 1024, the file name comes from the clock and the handle is open exactly when `fopen` succeeds; otherwise the logger's fields are unchanged |
| LogSpec.FileStamp | src/clog.cpp:177-183 | the time the shared `struct tm` holds when the file stamp is formatted: one of the two times read, and the time `log_log` read at line 150 whenever the size check does not open a new file (whose naming at line 105 refills it with the clock) |
| LogSpec.LogFile | src/clog.cpp:148-190 | with a handle open after the size check, exactly one file line is appended to the current file and no other file changes, stamped with the clock when the check opened a new file and with the time read at the start otherwise; with no handle, no file changes |
| LogSpec.RotatedFileStartsWithItsTime | src/clog.cpp:177-184 | a file that the size check creates holds one line, stamped with the very time its name was made from |
| LogSpec.LogIgnoresRotationPolicy | src/clog.cpp:176-179 | the result of logging does not depend on the rotation policy or `_last_day` |
| LogSpec.DateCheckFiresTwiceInOneDay | src/clog.cpp:127-133 | under DOM_DATE, two checks on the same day both ask for a new file whenever the second check's minute differs from the day of the month |
| LogSpec.DateCheckMissesNewDay | src/clog.cpp:127-136 | under DOM_DATE, a check on a new day asks for no new file when the minute equals the stored day |
| LogSpec.InfoScenario | src/clog.cpp:140-194 | at minimum level INFO, a DEBUG record changes nothing; an INFO record writes `[ HH:MM:SS INFO  ] y=5` with the time read by `log_log` to the console, and ends the open file with `stamp INFO : y=5`, whose stamp is the clock when the size check opened a new file |
| LogSpec.InitialStep | src/clog.cpp:55-59 | a new logger has level TRACE, is not quiet, has no lock, null user data, DOM_DATE and `_last_day` = -1; its file name comes from the clock and is non-empty; the only event is the open, the file is created empty if missing, the shared `struct tm` holds the clock, and no other file changes; the invariant holds |
| LogSpec.MacroStep | src/clog.h:60-65 | after a macro call the invariant holds; an existing instance keeps its configuration; on first use the instance has the initialiser list's configuration and the record, whatever its level, reaches the console |
| LogSpec.FirstUse | src/clog.cpp:55-59 | logging right after construction keeps the initialiser list's configuration and writes the record's line to the console |
| Clog.CLog.constructor | src/clog.cpp:55-59 | the new object and world are what `InitialStep` gives, and the object is valid |
| Clog.CLog.Close | src/clog.cpp:61-65 | the destructor closes the open handle, if any, recording the close in the trace, and changes nothing else |
| Clog.CLog.Lock | src/clog.cpp:67-71 | calls the callback with the stored user data and 1 when a callback is set; otherwise nothing |
| Clog.CLog.Unlock | src/clog.cpp:74-78 | calls the callback with the stored user data and 0 when a callback is set; otherwise nothing |
| Clog.CLog.SetUdata | src/clog.cpp:80-82 | only the user data changes |
| Clog.CLog.SetLock | src/clog.cpp:85-87 | only the lock callback changes |
| Clog.CLog.SetLevel | src/clog.cpp:89-91 | only the minimum level changes; any int is accepted |
| Clog.CLog.SetQuiet | src/clog.cpp:94-96 | only the quiet flag changes |
| Clog.CLog.SetDomType | src/clog.cpp:98-101 | only the rotation policy changes |
| Clog.CLog.OpenNewFile | src/clog.cpp:111-117 | the object and the world step as `OpenNewFileStep` gives |
| Clog.CLog.IsNewlogRequired | src/clog.cpp:119-137 | the result and the new `_last_day` are what `NewlogStep` gives; only `_last_day` and, in the date branch, the shared `struct tm` change |
| Clog.CLog.WriteConsole | src/clog.cpp:153-174 | the world steps as `EmitStep` gives, with the line stamped from the shared `struct tm` |
| Clog.CLog.WriteFile | src/clog.cpp:176-190 | the size check and rotation as `RotateStep` gives, then one line through the handle, stamped from the shared `struct tm` as the rotation left it, as `WriteStep` gives |
| Clog.CLog.LogLog | src/clog.cpp:140-194 | the object and the world step as `LogStep` gives, and the object stays valid |
| Clog.Process.Ins | src/clog.h:26-29 | once constructed, the same instance is returned every time and the world is untouched; the first call constructs it |
| Clog.Process.Trace | src/clog.h:60 | `log_trace` is `log_log(TRACE, …)` on the single instance, as `MacroStep` gives; an existing instance stays the same object and a first call creates a fresh one |
| Clog.Process.Debug | src/clog.h:61 | `log_debug` is `log_log(DEBUG, …)` on the single instance, as `MacroStep` gives; an existing instance stays the same object and a first call creates a fresh one |
| Clog.Process.Info | src/clog.h:62 | `log_info` is `log_log(INFO, …)` on the single instance, as `MacroStep` gives; an existing instance stays the same object and a first call creates a fresh one |
| Clog.Process.Warn | src/clog.h:63 | `log_warn` is `log_log(WARN, …)` on the single instance, as `MacroStep` gives; an existing instance stays the same object and a first call creates a fresh one |
| Clog.Process.Error | src/clog.h:64 | `log_error` is `log_log(ERROR, …)` on the single instance, as `MacroStep` gives; an existing instance stays the same object and a first call creates a fresh one |
| Clog.Process.Fatal | src/clog.h:65 | `log_fatal` is `log_log(FATAL, …)` on the single instance, as `MacroStep` gives; an existing instance stays the same object and a first call creates a fresh one |

## Left out

- Console colouring is not modelled: `_std_handle`, `GetStdHandle`, `SetConsoleTextAttribute`, `TEXT_COLOR` and the `LOG_USE_COLOR` ANSI branch are presentational calls into a platform API.
- `vfprintf` substitution is not modelled. The message is taken as already-formatted text, and the three `fprintf` calls that make up one line are treated as a single line.
- `time` is an input: `Env.now` for the read at the top of `log_log`, and `Env.clock` for the read in `current_filename`. `is_newlog_required`, which nothing in the logger calls, takes its time (`clock`) and the file-size oracle as parameters of its own. `localtime` is modelled as storing that value in the shared `struct tm` (`localTm`); the conversion from seconds to calendar fields is not. When a macro's first call constructs the logger, the constructor's file name uses the same `clock` value as any rotation in that call.
- `get_file_size` is an oracle `Env.fileSize` that may return any int. On a failed `stat`, the source reads an uninitialised buffer, so its result is unspecified. File sizes are therefore not derived from the lines in the files.
- `fopen` is an oracle `Env.canOpen`. Why an open fails is not modelled.
- `fflush` is not modelled: a written line is in the file map at once. File contents are sequences of record strings, not bytes.
- Real mutual exclusion is not modelled; only the order and arguments of the lock callback's calls are. The thread safety of the static-local initialisation is also left out.
- The destructor is the method `Close`. Running it at process exit is not modelled.
- Calendar years below 0 are excluded: `ValidTm` needs `tm_year >= -1900`, so `%d` and `%Y` never print a sign.
