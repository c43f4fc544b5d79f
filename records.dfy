/** The texts the logger produces from the broken-down local time: the
    console record, the file record and the name of a new log file. */
module Records {
  import opened Text
  import opened ClogDefs

  const INT_MAX: int := 0x7fff_ffff

  /** The fields of `struct tm` that the logger reads, as `localtime` fills
      them: years since 1900, month 0-11, day of month 1-31, hour 0-23,
      minute 0-59, second 0-60. */
  datatype Tm = Tm(yearsSince1900: int, mon: int, mday: int, hour: int, min: int, sec: int)

  /** The ranges of section 7.27.1 of ISO C11 for these members. The year is
      limited to calendar years from 0 up to the largest `int` (so that
      `tm_year + 1900` does not overflow). */
  predicate ValidTm(t: Tm) {
    && -1900 <= t.yearsSince1900 <= INT_MAX - 1900
    && 0 <= t.mon <= 11
    && 1 <= t.mday <= 31
    && 0 <= t.hour <= 23
    && 0 <= t.min <= 59
    && 0 <= t.sec <= 60
  }

  /** The level name in its fixed-width column (`%-5s`). */
  function LevelField(level: Level): (r: string)
    ensures |r| == 5
    ensures r[..|LevelName(level)|] == LevelName(level)
    ensures forall i :: |LevelName(level)| <= i < 5 ==> r[i] == ' '
  {
    PadRight(LevelName(level), 5)
  }

  /** `%H:%M:%S`. */
  function ClockText(t: Tm): (r: string)
    requires ValidTm(t)
    ensures |r| == 8 && r[2] == ':' && r[5] == ':'
    ensures r[0..2] == Pad2(t.hour) && r[3..5] == Pad2(t.min) && r[6..8] == Pad2(t.sec)
  {
    Pad2(t.hour) + ":" + Pad2(t.min) + ":" + Pad2(t.sec)
  }

  function Year(t: Tm): string
    requires ValidTm(t)
  {
    Decimal(t.yearsSince1900 + 1900)
  }

  /** `%Y-%m-%d %H:%M:%S`: the year in decimal, then zero-padded month,
      day and clock time. */
  function StampText(t: Tm): (r: string)
    requires ValidTm(t)
    ensures |r| == |Year(t)| + 15
  {
    Year(t) + "-" + Pad2(t.mon + 1) + "-" + Pad2(t.mday) + " " + ClockText(t)
  }

  /** The file stamp, position by position. */
  lemma StampTextLayout(t: Tm)
    requires ValidTm(t)
    ensures var r := StampText(t);
      var y := |Year(t)|;
      && r[..y] == Year(t) && r[y] == '-'
      && r[y + 1..y + 3] == Pad2(t.mon + 1) && r[y + 3] == '-'
      && r[y + 4..y + 6] == Pad2(t.mday) && r[y + 6] == ' '
      && r[y + 7..] == ClockText(t)
  {
    DateFieldsAt(Year(t), Pad2(t.mon + 1), Pad2(t.mday), ClockText(t));
  }

  lemma DateFieldsAt(y: string, m: string, d: string, c: string)
    requires |m| == 2 && |d| == 2
    ensures var r := y + "-" + m + "-" + d + " " + c;
      var n := |y|;
      && r[..n] == y && r[n] == '-'
      && r[n + 1..n + 3] == m && r[n + 3] == '-'
      && r[n + 4..n + 6] == d && r[n + 6] == ' '
      && r[n + 7..] == c
  {
  }

  /** The time stamps always fit the buffers the logger formats them into
      (16 characters for the console, 32 for the file), so strftime never
      leaves them empty. */
  lemma StampsFit(t: Tm)
    requires ValidTm(t)
    ensures Strftime(ClockText(t), 16) == ClockText(t)
    ensures Strftime(StampText(t), 32) == StampText(t)
    ensures |StampText(t)| <= 25
  {
    assert Pow10(10) == 10000000000;
    DecimalLengthBelow(t.yearsSince1900 + 1900, 10);
  }

  /** For a four-digit year the file stamp is `YYYY-MM-DD HH:MM:SS`. */
  lemma FourDigitYearStamp(t: Tm)
    requires ValidTm(t) && 1000 <= t.yearsSince1900 + 1900 <= 9999
    ensures |StampText(t)| == 19
  {
    assert Pow10(3) == 1000 && Pow10(4) == 10000;
    DecimalLengthExact(t.yearsSince1900 + 1900, 4);
  }

  /** The line written to the console: `[ HH:MM:SS LEVEL ] message`. */
  function ConsoleLine(t: Tm, level: Level, msg: string): (r: string)
    requires ValidTm(t)
    ensures |r| > |msg| + 7 && r[|r| - 1] == '\n'
  {
    "[ " + Strftime(ClockText(t), 16) + " " + LevelField(level) + " ] " + msg + "\n"
  }

  /** The console line, position by position. */
  lemma ConsoleLineLayout(t: Tm, level: Level, msg: string)
    requires ValidTm(t)
    ensures var r := ConsoleLine(t, level, msg);
      && |r| == 20 + |msg|
      && r[..2] == "[ " && r[2..10] == ClockText(t) && r[10] == ' '
      && r[11..16] == LevelField(level) && r[16..19] == " ] "
      && r[19..|r| - 1] == msg && r[|r| - 1] == '\n'
  {
    StampsFit(t);
  }

  /** The line appended to the log file: `stamp LEVEL: message`. */
  function FileLine(t: Tm, level: Level, msg: string): (r: string)
    requires ValidTm(t)
    ensures |r| > |msg| + 7 && r[|r| - 1] == '\n'
  {
    Strftime(StampText(t), 32) + " " + LevelField(level) + ": " + msg + "\n"
  }

  /** The file line, position by position. */
  lemma FileLineLayout(t: Tm, level: Level, msg: string)
    requires ValidTm(t)
    ensures var r := FileLine(t, level, msg);
      var n := |StampText(t)|;
      && |r| == n + 9 + |msg|
      && r[..n] == StampText(t) && r[n] == ' '
      && r[n + 1..n + 6] == LevelField(level) && r[n + 6..n + 8] == ": "
      && r[n + 8..|r| - 1] == msg && r[|r| - 1] == '\n'
  {
    StampsFit(t);
  }

  /** The name of a new log file, `current_filename()`: year, month and day
      joined by `-`, a space, hour, minute and second joined by `-`, then
      `.trace`; every number is printed with `%d`, so without padding. */
  function FileName(t: Tm): (r: string)
    requires ValidTm(t)
    ensures |r| >= 17 && r[|r| - 6..] == ".trace"
  {
    Join(Year(t), '-', Join(Decimal(t.mon + 1), '-', Join(Decimal(t.mday), ' ',
      Join(Decimal(t.hour), '-', Join(Decimal(t.min), '-', Decimal(t.sec) + ".trace")))))
  }

  /** Reads the six number fields back out of a log file name. */
  function FileNameFields(name: string): seq<string>
  {
    var (year, r1) := SplitOn(name, '-');
    var (mon, r2) := SplitOn(r1, '-');
    var (day, r3) := SplitOn(r2, ' ');
    var (hour, r4) := SplitOn(r3, '-');
    var (min, r5) := SplitOn(r4, '-');
    var sec := if |r5| >= 6 then r5[..|r5| - 6] else r5;
    [year, mon, day, hour, min, sec]
  }

  /** A file name determines the time it was made from. */
  lemma FileNameRoundTrip(t: Tm)
    requires ValidTm(t)
    ensures FileNameFields(FileName(t)) ==
      [Year(t), Decimal(t.mon + 1), Decimal(t.mday), Decimal(t.hour), Decimal(t.min), Decimal(t.sec)]
  {
    var y, mo, d, h, mi, s := Year(t), Decimal(t.mon + 1), Decimal(t.mday), Decimal(t.hour), Decimal(t.min), Decimal(t.sec);
    DigitsHaveNo(y, '-');
    DigitsHaveNo(mo, '-');
    DigitsHaveNo(d, ' ');
    DigitsHaveNo(h, '-');
    DigitsHaveNo(mi, '-');
    var r5 := s + ".trace";
    var r4 := Join(mi, '-', r5);
    var r3 := Join(h, '-', r4);
    var r2 := Join(d, ' ', r3);
    var r1 := Join(mo, '-', r2);
    assert FileName(t) == Join(y, '-', r1);
    SplitOnJoin(y, '-', r1);
    SplitOnJoin(mo, '-', r2);
    SplitOnJoin(d, ' ', r3);
    SplitOnJoin(h, '-', r4);
    SplitOnJoin(mi, '-', r5);
    assert r5[..|r5| - 6] == s;
  }

  /** Log files made at different times have different names: the name is
      unique to the second. */
  lemma FileNameInjective(a: Tm, b: Tm)
    requires ValidTm(a) && ValidTm(b) && FileName(a) == FileName(b)
    ensures a == b
  {
    FileNameRoundTrip(a);
    FileNameRoundTrip(b);
    DecimalInjective(a.yearsSince1900 + 1900, b.yearsSince1900 + 1900);
    DecimalInjective(a.mon + 1, b.mon + 1);
    DecimalInjective(a.mday, b.mday);
    DecimalInjective(a.hour, b.hour);
    DecimalInjective(a.min, b.min);
    DecimalInjective(a.sec, b.sec);
  }

  /** A file name is never empty, ends in `.trace`, and fits the
      `MAX_PATH` (260) buffer it is printed into. */
  lemma FileNameShape(t: Tm)
    requires ValidTm(t)
    ensures 17 <= |FileName(t)| <= 31
    ensures FileName(t)[|FileName(t)| - 6..] == ".trace"
  {
    assert Pow10(10) == 10000000000 && Pow10(2) == 100;
    DecimalLengthBelow(t.yearsSince1900 + 1900, 10);
    DecimalLengthBelow(t.mon + 1, 2);
    DecimalLengthBelow(t.mday, 2);
    DecimalLengthBelow(t.hour, 2);
    DecimalLengthBelow(t.min, 2);
    DecimalLengthBelow(t.sec, 2);
  }
}
