/** The logger's constants: the severity levels, the two rotation policies
    and the size threshold declared in its header, and the table of level
    names defined in its implementation file. */
module ClogDefs {

  /** Severity levels, in increasing order of severity. */
  const TRACE: int := 0
  const DEBUG: int := 1
  const INFO: int := 2
  const WARN: int := 3
  const ERROR: int := 4
  const FATAL: int := 5

  /** A level that may be passed to `log_log`: it indexes the table of level
      names, so only the six declared values are meaningful. */
  type Level = l: int | TRACE <= l <= FATAL

  /** Rotation policy of the log file: by size or by date. */
  datatype DomType = DomSize | DomDate

  /** Size in bytes above which a log file is replaced by a new one. */
  const MAX_LOG_FILE_SIZE: int := 1024

  /** `level_names`, defined in the implementation file. */
  const LEVEL_NAMES: seq<string> := ["TRACE", "DEBUG", "INFO", "WARN", "ERROR", "FATAL"]

  /** The name printed for a level (`level_names[level]`). */
  function LevelName(level: Level): (name: string)
    ensures 4 <= |name| <= 5
  {
    LEVEL_NAMES[level]
  }

  /** Each level prints under its own name, so a record's level can be read
      back from its text. */
  lemma LevelNamesDistinct(a: Level, b: Level)
    requires LevelName(a) == LevelName(b)
    ensures a == b
  {
  }
}
