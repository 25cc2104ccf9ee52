/** Model of config.go: the Level enum, its zap counterpart, the Console enum and the Config record. */
module Config {
  import opened Wrappers

  /** Level is declared as an int8 (config.go:63). */
  newtype Level = x: int | -128 <= x < 128

  /** zapcore.Level, the type the level is stored as inside zap, is an int8 as well. */
  newtype ZapLevel = x: int | -128 <= x < 128

  const LevelDebug: Level := -1
  const LevelInfo: Level := 0
  const LevelWarn: Level := 1
  const LevelError: Level := 2
  const LevelDPanic: Level := 3
  const LevelPanic: Level := 4
  const LevelFatal: Level := 5

  /** The sentinel Level() reports for a stored value outside the enum. Its numeric value comes
      from generated enum code that is not part of this model; only its lying outside the enum matters. */
  const LevelInvalid: Level := 6

  /** zap's DPanicLevel: the first level whose calls are never dropped before formatting. */
  const ZapDPanicLevel: ZapLevel := 3

  /** The members of the enum, in declaration order. */
  function Members(): seq<Level> {
    [LevelDebug, LevelInfo, LevelWarn, LevelError, LevelDPanic, LevelPanic, LevelFatal]
  }

  /** A Level value is valid when it is one of the enum's members. */
  predicate IsValid(l: Level) {
    l in Members()
  }

  /** The enum starts at Debug = -1 and each member is one more than the previous one, up to Fatal = 5;
      so a value is a member exactly when it lies in -1..5, and the sentinel is not one. */
  lemma LevelValuesConsecutive()
    ensures |Members()| == 7 && Members()[0] == -1 && Members()[6] == 5
    ensures forall k :: 0 <= k < 6 ==> Members()[k + 1] == Members()[k] + 1
    ensures forall l :: IsValid(l) <==> -1 <= l <= 5
    ensures !IsValid(LevelInvalid)
  {
  }

  /** Level.ToZapLevel: a plain int8-to-int8 cast. */
  function ToZapLevel(l: Level): ZapLevel {
    l as int as ZapLevel
  }

  /** The reverse cast, Level(z), used by Level() on the stored zap level. */
  function FromZapLevel(z: ZapLevel): Level {
    z as int as Level
  }

  /** The cast keeps the numeric value: it is injective, order-preserving, and undone by the reverse cast. */
  lemma ToZapLevelPreservesOrder(a: Level, b: Level)
    ensures a < b <==> ToZapLevel(a) < ToZapLevel(b)
    ensures a == b <==> ToZapLevel(a) == ToZapLevel(b)
    ensures FromZapLevel(ToZapLevel(a)) == a
    ensures ToZapLevel(FromZapLevel(ToZapLevel(b))) == ToZapLevel(b)
  {
  }

  /** The Console enum: where console output goes. */
  datatype Console = ConsoleNo | ConsoleStdout | ConsoleStderr

  /** The textual form of each Console member. */
  function ConsoleName(c: Console): string {
    match c
    case ConsoleNo => "no"
    case ConsoleStdout => "stdout"
    case ConsoleStderr => "stderr"
  }

  /** Parsing a Console value accepts exactly the three member names. */
  function ParseConsole(s: string): (r: Option<Console>)
    ensures r.Some? <==> (s == "no" || s == "stdout" || s == "stderr")
    ensures r.Some? ==> ConsoleName(r.value) == s
  {
    if s == "no" then Some(ConsoleNo)
    else if s == "stdout" then Some(ConsoleStdout)
    else if s == "stderr" then Some(ConsoleStderr)
    else None
  }

  /** Every Console member survives a round trip through its name. */
  lemma ParseConsoleName(c: Console)
    ensures ParseConsole(ConsoleName(c)) == Some(c)
  {
  }

  /** The rotating-file settings (LogFile): only the file name matters to the model. */
  datatype LogFile = LogFile(
    filename: string,
    maxSize: int,
    maxAge: int,
    maxBackups: int,
    localTime: bool,
    compress: bool)

  /** The defaults the struct tags declare. */
  const DefaultLogFile: LogFile := LogFile("", 100, 30, 30, false, true)

  /** The logging configuration, updated in place by Init. */
  class Config {
    var level: map<string, Level>
    var console: Console
    var file: LogFile

    /** A configuration carrying the struct-tag defaults: no console, no file, no level patterns. */
    constructor ()
      ensures level == map[] && console == ConsoleNo && file == DefaultLogFile
    {
      level := map[];
      console := ConsoleNo;
      file := DefaultLogFile;
    }

    /** Init replaces the level map with a fresh one holding only the wildcard default. */
    method Init()
      modifies this
      ensures level == map["*" := LevelInfo]
      ensures "*" in level && level["*"] == LevelInfo && |level| == 1
      ensures console == old(console) && file == old(file)
    {
      level := map["*" := LevelInfo];
    }

    /** Whether a logger built from this configuration gets any output core: a console stream
        other than "no", or a non-empty file name. */
    predicate HasSink()
      reads this
    {
      console != ConsoleNo || |file.filename| > 0
    }
  }
}
