/**
 * The log-system rules of utils/logger.py: the once-only global logger,
 * the log file name and path, the record format, the argument summaries of
 * the call-logging decorator, and which files `cleanup_logs` deletes.
 * Handlers, file rotation and the clock are outside the model; the date is
 * a parameter.
 */
module Logging {
  import opened Wrappers
  import opened Text
  import opened Calendar

  const InfoLevel := 20

  /** The parameters of `setup_logging`. */
  datatype Settings = Settings(
    logLevel: int, logDir: string, logFilePrefix: string, maxBytes: int, backupCount: int,
    consoleOutput: bool, includeProcessId: bool, includeThreadName: bool)

  const DefaultSettings := Settings(InfoLevel, "logs", "autoloader", 10 * 1024 * 1024, 5, true, true, true)

  /** The configured "AutoLoader" logger: level, file, record format, rotation and console handler. */
  datatype Logger = Logger(level: int, filePath: string, format: string, maxBytes: int, backupCount: int, console: bool)

  /** `strftime("%Y%m%d")`: the year as `str(year)`, month and day padded to two digits. */
  function FormatDate(d: Date): string
    requires Valid(d)
  {
    NatToString(d.year) + ZFill(NatToString(d.month), 2) + ZFill(NatToString(d.day), 2)
  }

  /** `f"{log_file_prefix}_{current_date}.log"`. */
  function LogFileName(prefix: string, today: Date): string
    requires Valid(today)
  {
    prefix + "_" + FormatDate(today) + ".log"
  }

  /** POSIX `os.path.join(dir, name)`. */
  function PathJoin(dir: string, name: string): (p: string)
    ensures name != [] && name[0] == '/' ==> p == name
    ensures (name == [] || name[0] != '/') ==>
      |name| <= |p| && p[|p| - |name|..] == name &&
      (p[..|p| - |name|] == dir || p[..|p| - |name|] == dir + "/") &&
      (p[..|p| - |name|] == [] || p[|p| - |name| - 1] == '/')
  {
    if name != [] && name[0] == '/' then name
    else if dir == [] || dir[|dir| - 1] == '/' then
      assert (dir + name)[..|dir|] == dir;
      dir + name
    else
      assert (dir + "/" + name)[..|dir| + 1] == dir + "/";
      dir + "/" + name
  }

  const AscTime := "%(asctime)s"
  const ProcessId := "PID:%(process)d"
  const ThreadName := "Thread:%(threadName)s"
  const LevelName := "%(levelname)s"
  const Location := "%(module)s.%(funcName)s:%(lineno)d"
  const Message := "%(message)s"
  const Sep := " | "

  /** The pieces of the record format, in order. */
  function FormatParts(includeProcessId: bool, includeThreadName: bool): seq<string> {
    [AscTime]
    + (if includeProcessId then [ProcessId] else [])
    + (if includeThreadName then [ThreadName] else [])
    + [LevelName, Location, Message]
  }

  function LogFormat(includeProcessId: bool, includeThreadName: bool): string {
    Join(FormatParts(includeProcessId, includeThreadName), Sep)
  }

  /** The four record formats: the time first, PID and thread only when asked for, then level, location and message. */
  lemma LogFormats()
    ensures LogFormat(true, true) ==
      AscTime + Sep + (ProcessId + Sep + (ThreadName + Sep + (LevelName + Sep + (Location + Sep + Message))))
    ensures LogFormat(true, false) ==
      AscTime + Sep + (ProcessId + Sep + (LevelName + Sep + (Location + Sep + Message)))
    ensures LogFormat(false, true) ==
      AscTime + Sep + (ThreadName + Sep + (LevelName + Sep + (Location + Sep + Message)))
    ensures LogFormat(false, false) ==
      AscTime + Sep + (LevelName + Sep + (Location + Sep + Message))
  {
    var tail := [LevelName, Location, Message];
    assert Join(tail, Sep) == LevelName + Sep + (Location + Sep + Message) by {
      assert Join([Message], Sep) == Message;
      JoinCons(Location, [Message], Sep);
      assert [Location] + [Message] == [Location, Message];
      JoinCons(LevelName, [Location, Message], Sep);
      assert [LevelName] + [Location, Message] == tail;
    }
    JoinCons(AscTime, tail, Sep);
    assert FormatParts(false, false) == [AscTime] + tail;
    JoinCons(ProcessId, tail, Sep);
    JoinCons(AscTime, [ProcessId] + tail, Sep);
    assert FormatParts(true, false) == [AscTime] + ([ProcessId] + tail);
    JoinCons(ThreadName, tail, Sep);
    JoinCons(AscTime, [ThreadName] + tail, Sep);
    assert FormatParts(false, true) == [AscTime] + ([ThreadName] + tail);
    JoinCons(ProcessId, [ThreadName] + tail, Sep);
    JoinCons(AscTime, [ProcessId] + ([ThreadName] + tail), Sep);
    assert FormatParts(true, true) == [AscTime] + ([ProcessId] + ([ThreadName] + tail));
  }

  /** What `setup_logging` builds on a first call. */
  function Configure(s: Settings, today: Date): Logger
    requires Valid(today)
  {
    Logger(s.logLevel, PathJoin(s.logDir, LogFileName(s.logFilePrefix, today)),
           LogFormat(s.includeProcessId, s.includeThreadName), s.maxBytes, s.backupCount, s.consoleOutput)
  }

  /** A call that may initialise the global logger: `setup_logging(...)` or `get_logger()`. */
  datatype InitCall = SetupCall(settings: Settings, today: Date) | GetCall(today: Date)

  function SettingsOf(c: InitCall): Settings {
    match c
    case SetupCall(s, _) => s
    case GetCall(_) => DefaultSettings
  }

  /** The logger a call returns, given the global before it. */
  function Initialise(current: Option<Logger>, c: InitCall): Logger
    requires Valid(c.today)
  {
    if current.Some? then current.value else Configure(SettingsOf(c), c.today)
  }

  /** The module-level `_logger` and the two functions that set it. */
  class LoggingState {
    var current: Option<Logger>

    constructor ()
      ensures current.None?
    {
      current := None;
    }

    /** `setup_logging`: an existing logger is returned unchanged; otherwise one is configured and kept. */
    method SetupLogging(s: Settings, today: Date) returns (lg: Logger)
      requires Valid(today)
      modifies this
      ensures lg == Initialise(old(current), SetupCall(s, today))
      ensures current == Some(lg)
    {
      if current.Some? {
        return current.value;
      }
      lg := Configure(s, today);
      current := Some(lg);
    }

    /** `get_logger`: initialise with the defaults only while there is no logger. */
    method GetLogger(today: Date) returns (lg: Logger)
      requires Valid(today)
      modifies this
      ensures lg == Initialise(old(current), GetCall(today))
      ensures current == Some(lg)
    {
      if current.None? {
        lg := SetupLogging(DefaultSettings, today);
      } else {
        lg := current.value;
      }
    }
  }

  /** The loggers returned by a sequence of calls, starting from `current`. */
  function ReturnedLoggers(current: Option<Logger>, calls: seq<InitCall>): seq<Logger>
    requires forall i :: 0 <= i < |calls| ==> Valid(calls[i].today)
    decreases |calls|
  {
    if calls == [] then []
    else
      var lg := Initialise(current, calls[0]);
      [lg] + ReturnedLoggers(Some(lg), calls[1..])
  }

  /**
   * Initialisation happens at most once: every call returns the logger the
   * first call configured, whatever settings and dates later calls pass.
   */
  lemma {:induction false} InitialisedOnce(current: Option<Logger>, calls: seq<InitCall>)
    requires calls != []
    requires forall i :: 0 <= i < |calls| ==> Valid(calls[i].today)
    ensures |ReturnedLoggers(current, calls)| == |calls|
    ensures forall i :: 0 <= i < |calls| ==> ReturnedLoggers(current, calls)[i] == Initialise(current, calls[0])
    decreases |calls|
  {
    var lg := Initialise(current, calls[0]);
    if |calls| > 1 {
      InitialisedOnce(Some(lg), calls[1..]);
    }
  }

  // ---------------------------------------------------------------------
  // The call-logging decorator's argument summaries.
  // ---------------------------------------------------------------------

  /** `repr(a)` when shorter than 100 characters, else `type(长度:len)`. */
  function ArgRepr(repr: string, typeName: string): (r: string)
    ensures |repr| < 100 ==> r == repr
    ensures |repr| >= 100 ==> r == typeName + "(长度:" + NatToString(|repr|) + ")"
  {
    if |repr| < 100 then repr else typeName + "(长度:" + NatToString(|repr|) + ")"
  }

  /** The keyword-argument summary as written: the long form lacks its closing parenthesis. */
  function KwargReprAsWritten(key: string, repr: string, typeName: string): string {
    key + "=" + (if |repr| < 100 then repr else typeName + "(长度:" + NatToString(|repr|))
  }

  /** Number of ')' in a string. */
  function CloseCount(s: string): nat {
    if s == [] then 0 else (if s[0] == ')' then 1 else 0) + CloseCount(s[1..])
  }

  /** Number of '(' in a string. */
  function OpenCount(s: string): nat {
    if s == [] then 0 else (if s[0] == '(' then 1 else 0) + OpenCount(s[1..])
  }

  lemma {:induction false} CountsConcat(a: string, b: string)
    ensures OpenCount(a + b) == OpenCount(a) + OpenCount(b)
    ensures CloseCount(a + b) == CloseCount(a) + CloseCount(b)
  {
    if a == [] {
      assert a + b == b;
    } else {
      assert (a + b)[0] == a[0];
      assert (a + b)[1..] == a[1..] + b;
      CountsConcat(a[1..], b);
    }
  }

  lemma {:induction false} DigitsHaveNoParens(s: string)
    requires AllDigits(s)
    ensures OpenCount(s) == 0 && CloseCount(s) == 0
  {
    if s != [] {
      DigitsHaveNoParens(s[1..]);
    }
  }

  /**
   * The parentheses of a long keyword summary `key=type(长度:n`, with and
   * without its closing parenthesis: the length opens one, and only the
   * closing one closes it.
   */
  lemma LongSummaryCounts(key: string, typeName: string, n: string)
    requires AllDigits(n)
    ensures OpenCount(key + "=" + (typeName + "(长度:" + n)) == OpenCount(key) + OpenCount(typeName) + 1
    ensures CloseCount(key + "=" + (typeName + "(长度:" + n)) == CloseCount(key) + CloseCount(typeName)
    ensures OpenCount(key + "=" + (typeName + "(长度:" + n + ")")) == OpenCount(key) + OpenCount(typeName) + 1
    ensures CloseCount(key + "=" + (typeName + "(长度:" + n + ")")) == CloseCount(key) + CloseCount(typeName) + 1
  {
    DigitsHaveNoParens(n);
    assert OpenCount("=") == 0 && CloseCount("=") == 0;
    assert OpenCount("(长度:") == 1 && CloseCount("(长度:") == 0 by {
      assert "(长度:"[1..] == "长度:";
      assert "长度:"[1..] == "度:";
      assert "度:"[1..] == ":";
      assert ":"[1..] == "";
    }
    assert OpenCount(")") == 0 && CloseCount(")") == 1 by {
      assert ")"[1..] == "";
    }
    CountsConcat(key, "=");
    CountsConcat(typeName, "(长度:");
    CountsConcat(typeName + "(长度:", n);
    CountsConcat(typeName + "(长度:" + n, ")");
    CountsConcat(key + "=", typeName + "(长度:" + n);
    CountsConcat(key + "=", typeName + "(长度:" + n + ")");
  }

  /**
   * The keyword-argument summary as intended: `key=` followed by the
   * positional summary, so a short value appears verbatim and a long one
   * ends with the parenthesis that closes its length, leaving a balanced
   * key and type name balanced.
   */
  function KwargRepr(key: string, repr: string, typeName: string): (r: string)
    ensures |key| < |r| && r[..|key| + 1] == key + "="
    ensures |repr| < 100 ==> r == key + "=" + repr
    ensures |repr| >= 100 ==> r[|r| - 1] == ')'
    ensures |repr| >= 100 && OpenCount(key) == CloseCount(key) && OpenCount(typeName) == CloseCount(typeName) ==>
      OpenCount(r) == CloseCount(r)
  {
    var r := key + "=" + ArgRepr(repr, typeName);
    assert r[..|key| + 1] == key + "=";
    if |repr| >= 100 then
      LongSummaryCounts(key, typeName, NatToString(|repr|));
      r
    else
      r
  }

  /**
   * The long keyword summary as written opens one more parenthesis than it
   * closes: for a 150-character `data` string it reads `data=str(长度:150`.
   */
  lemma KwargReprUnbalanced(key: string, repr: string, typeName: string)
    requires |repr| >= 100
    requires OpenCount(key) == CloseCount(key) && OpenCount(typeName) == CloseCount(typeName)
    ensures OpenCount(KwargReprAsWritten(key, repr, typeName)) == CloseCount(KwargReprAsWritten(key, repr, typeName)) + 1
    ensures OpenCount(KwargRepr(key, repr, typeName)) == CloseCount(KwargRepr(key, repr, typeName))
  {
    LongSummaryCounts(key, typeName, NatToString(|repr|));
  }

  /** The summary of a return value: None is `NoneType(长度:0)`. */
  function ResultRepr(result: Option<string>, typeName: string): (r: string)
    ensures result.Some? && |result.value| < 100 ==> r == result.value
    ensures result.Some? && |result.value| >= 100 ==> r == typeName + "(长度:" + NatToString(|result.value|) + ")"
    ensures result.None? ==> r == typeName + "(长度:0)"
    ensures result.Some? ==> r == ArgRepr(result.value, typeName)
  {
    if result.Some? && |result.value| < 100 then result.value
    else typeName + "(长度:" + (if result.Some? then NatToString(|result.value|) else "0") + ")"
  }

  // ---------------------------------------------------------------------
  // cleanup_logs
  // ---------------------------------------------------------------------

  /** The moment of the call: a day number and the microseconds since midnight. */
  datatype Clock = Clock(day: int, microsecond: nat)

  /** A file the glob found; `removable` is false when `os.remove` would fail on it. */
  datatype LogFile = LogFile(name: string, removable: bool)

  /** What the loop does with one file. */
  datatype FileAction = Skipped | Kept | Removed | Warned

  /** `filename.split("_")[1].split(".")[0]`, when the name has an underscore. */
  function DateToken(name: string): Option<string> {
    if '_' in name then Some(Before(SplitSecond(name, '_'), '.')) else None
  }

  /** The token shape the loop accepts: exactly eight digits. */
  predicate IsDateToken(t: string) {
    |t| == 8 && AllDigits(t)
  }

  /** `datetime.strptime(t, "%Y%m%d")` on eight digits: None where it raises. */
  function ParseDate(t: string): (r: Option<Date>)
    requires IsDateToken(t)
    ensures r.Some? ==> Valid(r.value)
  {
    var d := Date(DigitsValue(t[..4]), DigitsValue(t[4..6]), DigitsValue(t[6..]));
    if Valid(d) then Some(d) else None
  }

  /** `file_date < cutoff_date`: midnight of d before `now - days_to_keep` days. */
  predicate Due(d: Date, now: Clock, daysToKeep: int)
    requires Valid(d)
  {
    Ordinal(d) < now.day - daysToKeep || (Ordinal(d) == now.day - daysToKeep && now.microsecond > 0)
  }

  function Action(f: LogFile, now: Clock, daysToKeep: int): FileAction {
    var token := DateToken(f.name);
    if token.None? || !IsDateToken(token.value) then Skipped
    else
      var date := ParseDate(token.value);
      if date.None? then Warned
      else if !Due(date.value, now, daysToKeep) then Kept
      else if f.removable then Removed
      else Warned
  }

  /** Names of the files with a given action, in glob order. */
  function NamesWith(files: seq<LogFile>, now: Clock, daysToKeep: int, a: FileAction): seq<string> {
    if files == [] then []
    else
      var last := files[|files| - 1];
      NamesWith(files[..|files| - 1], now, daysToKeep, a) + (if Action(last, now, daysToKeep) == a then [last.name] else [])
  }

  /**
   * `cleanup_logs`: for each file the glob found, parse the date token and
   * delete the file when its date is before the cutoff. A failure on one
   * file (a bad date, a refused delete) is logged and the loop goes on.
   */
  method CleanupLogs(files: seq<LogFile>, now: Clock, daysToKeep: int) returns (removed: seq<string>, warned: seq<string>)
    ensures removed == NamesWith(files, now, daysToKeep, Removed)
    ensures warned == NamesWith(files, now, daysToKeep, Warned)
  {
    removed := [];
    warned := [];
    for i := 0 to |files|
      invariant removed == NamesWith(files[..i], now, daysToKeep, Removed)
      invariant warned == NamesWith(files[..i], now, daysToKeep, Warned)
    {
      assert files[..i + 1][..i] == files[..i];
      var filename := files[i].name;
      if '_' in filename {
        var dateStr := Before(SplitSecond(filename, '_'), '.');
        if |dateStr| == 8 && AllDigits(dateStr) {
          var fileDate := ParseDate(dateStr);
          if fileDate.None? {
            warned := warned + [filename];
          } else if Due(fileDate.value, now, daysToKeep) {
            if files[i].removable {
              removed := removed + [filename];
            } else {
              warned := warned + [filename];
            }
          }
        }
      }
    }
    assert files[..|files|] == files;
  }

  /** A name is in the result for an action exactly when some listed file has that name and action. */
  lemma {:induction false} NamesWithExactly(files: seq<LogFile>, now: Clock, daysToKeep: int, a: FileAction, name: string)
    ensures name in NamesWith(files, now, daysToKeep, a) <==>
      exists i :: 0 <= i < |files| && files[i].name == name && Action(files[i], now, daysToKeep) == a
  {
    if files != [] {
      var init := files[..|files| - 1];
      var last := files[|files| - 1];
      var hit := Action(last, now, daysToKeep) == a;
      NamesWithExactly(init, now, daysToKeep, a, name);
      assert NamesWith(files, now, daysToKeep, a) == NamesWith(init, now, daysToKeep, a) + (if hit then [last.name] else []);
      assert forall i :: 0 <= i < |init| ==> files[i] == init[i];
      if name in NamesWith(files, now, daysToKeep, a) {
        if name !in NamesWith(init, now, daysToKeep, a) {
          assert hit && last.name == name;
        }
      } else {
        forall i | 0 <= i < |files| && files[i].name == name
          ensures Action(files[i], now, daysToKeep) != a
        {
          if i == |init| {
            assert files[i] == last;
          }
        }
      }
    }
  }

  /** `%m` and `%d`: a number below 100 zero-filled to two digits reads back as itself. */
  lemma TwoDigits(n: nat)
    requires n < 100
    ensures |ZFill(NatToString(n), 2)| == 2 && AllDigits(ZFill(NatToString(n), 2))
    ensures DigitsValue(ZFill(NatToString(n), 2)) == n
  {
    assert IntToString(n) == NatToString(n);
    ZFillNonNegative(n, 2);
    NatToStringLength(n);
  }

  /** For a four-digit year the date string is an eight-digit token that parses back to the date. */
  lemma FormatDateShape(d: Date)
    requires Valid(d) && d.year >= 1000
    ensures IsDateToken(FormatDate(d))
    ensures '_' !in FormatDate(d) && '.' !in FormatDate(d)
    ensures ParseDate(FormatDate(d)) == Some(d)
  {
    var y := NatToString(d.year);
    var m := ZFill(NatToString(d.month), 2);
    var dd := ZFill(NatToString(d.day), 2);
    NatToStringLength(d.year);
    NatToStringRoundTrip(d.year);
    TwoDigits(d.month);
    TwoDigits(d.day);
    var t := y + m + dd;
    assert t == FormatDate(d);
    DigitsAppend(y, m);
    DigitsAppend(y + m, dd);
    assert t[..4] == y && t[4..6] == m && t[6..] == dd;
    assert Date(DigitsValue(t[..4]), DigitsValue(t[4..6]), DigitsValue(t[6..])) == d;
  }

  /** The date token of `<prefix>_<rest>` for a prefix without underscores. */
  lemma TokenAfterPrefix(prefix: string, rest: string)
    requires '_' !in prefix
    ensures DateToken(prefix + "_" + rest) == Some(Before(Before(rest, '_'), '.'))
  {
    assert prefix + "_" + rest == prefix + ['_'] + rest;
    CutAtFirst(prefix, '_', rest);
  }

  /** The token of `<digits>.<anything>`, when the digits contain neither separator. */
  lemma TokenOfDated(t: string, tail: string)
    requires '_' !in t && '.' !in t && '_' !in tail
    ensures Before(Before(t + "." + tail, '_'), '.') == t
  {
    var rest := t + ['.'] + tail;
    assert '_' !in rest;
    BeforeAbsent(rest, '_', []);
    assert rest + [] == rest;
    CutAtFirst(t, '.', tail);
  }

  /**
   * Files this logger writes (`<prefix>_<YYYYMMDD>.log`, and rotated
   * copies with a `.k` suffix) are found by the cleanup: such a file is
   * deleted exactly when its date is before the cutoff and the removal
   * succeeds, kept while its date is recent, and reported when removal fails.
   */
  lemma OwnFilesFollowTheCutoff(prefix: string, d: Date, suffix: string, removable: bool, now: Clock, daysToKeep: int)
    requires '_' !in prefix
    requires Valid(d) && d.year >= 1000
    requires '_' !in suffix
    ensures Action(LogFile(LogFileName(prefix, d) + suffix, removable), now, daysToKeep) ==
      if !Due(d, now, daysToKeep) then Kept else if removable then Removed else Warned
  {
    FormatDateShape(d);
    var t := FormatDate(d);
    var tail := "log" + suffix;
    assert '_' !in tail;
    assert LogFileName(prefix, d) + suffix == prefix + "_" + (t + "." + tail);
    TokenAfterPrefix(prefix, t + "." + tail);
    TokenOfDated(t, tail);
  }

  /**
   * Files named with the `autoloader_run` prefix are never deleted: the
   * text after the first underscore is "run", not a date.
   */
  lemma RunLogsNeverDeleted(d: Date, suffix: string, removable: bool, now: Clock, daysToKeep: int)
    requires Valid(d)
    ensures Action(LogFile(LogFileName("autoloader_run", d) + suffix, removable), now, daysToKeep) == Skipped
  {
    var x := FormatDate(d) + ".log" + suffix;
    assert LogFileName("autoloader_run", d) + suffix == "autoloader" + "_" + ("run" + ['_'] + x);
    TokenAfterPrefix("autoloader", "run" + ['_'] + x);
    CutAtFirst("run", '_', x);
    BeforeAbsent("run", '.', []);
    assert "run" + [] == "run";
  }

  /** Deletion respects calendar order: if a date is due, every earlier date is due too. */
  lemma EarlierIsDue(a: Date, b: Date, now: Clock, daysToKeep: int)
    requires Valid(a) && Valid(b)
    requires Earlier(a, b) && Due(b, now, daysToKeep)
    ensures Due(a, now, daysToKeep)
  {
    OrdinalOrder(a, b);
  }

  /** With a non-negative retention, today's file and anything newer than the retention window is kept. */
  lemma RecentKept(d: Date, now: Clock, daysToKeep: int)
    requires Valid(d) && daysToKeep >= 0
    requires Ordinal(d) > now.day - daysToKeep
    ensures !Due(d, now, daysToKeep)
  {
  }
}
