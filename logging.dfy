/** Model of the level handling of a logger (logger.go): the current level, the temporary override
    and its rollback, the one-shot initialisation, the gate in front of every log call, and how
    the message of a call is built. */
module Logging {
  import opened Wrappers
  import Config
  import opened Sweetener

  /** The panic init() raises when the logger has neither a configuration nor a path to load one from. */
  const InitPanicMsg := "cfgPath or cfg must set one"

  // ---------------------------------------------------------------------------------------------
  // The level protocol, as functions on the state it reads and writes.

  /** The per-logger state the level protocol touches. */
  datatype LevelState = LevelState(
    level: Config.ZapLevel,   // the zap.AtomicLevel every output core compares against
    origin: Config.Level,     // originLevel: what a rollback restores
    pending: bool,            // tempTimer != nil: a rollback is armed
    initDone: bool)           // the sync.Once guarding init() has run
  {
    /** A rollback is only ever armed on a logger that went through init(). */
    predicate Valid() {
      pending ==> initDone
    }
  }

  /** The state after a call, and what the call produced. */
  datatype After<T> = After(state: LevelState, result: T)

  /** The state the registry's loader leaves a new logger in: zap.NewAtomicLevel() followed by
      SetLevel(resolved); originLevel keeps Go's zero value, which is LevelInfo. */
  function Loaded(resolved: Config.Level): LevelState {
    LevelState(Config.ToZapLevel(resolved), Config.LevelInfo, false, false)
  }

  /** init(): its body runs on the first call only, even when it panics (sync.Once counts a panicking
      function as done). config is the level it installs from the logger's configuration; None when
      neither cfg nor cfgPath is set, which makes it panic. The result tells whether it returned. */
  function InitStep(s: LevelState, config: Option<Config.Level>): After<bool> {
    if s.initDone then After(s, true)
    else match config
      case None => After(s.(initDone := true), false)
      case Some(lv) => After(s.(initDone := true, level := Config.ToZapLevel(lv)), true)
  }

  /** What Level() reports for a stored zap level: the level itself when it is a member of the enum. */
  function Reported(z: Config.ZapLevel): Config.Level {
    var l := Config.FromZapLevel(z);
    if Config.IsValid(l) then l else Config.LevelInvalid
  }

  /** Level(): init(), then the stored level as reported. */
  function LevelQuery(s: LevelState, config: Option<Config.Level>): After<Outcome<Config.Level>> {
    var i := InitStep(s, config);
    if i.result then After(i.state, Returned(Reported(i.state.level)))
    else After(i.state, Panicked(InitPanicMsg))
  }

  /** SetLevel(lv): stores the level, and nothing else. */
  function SetLevelStep(s: LevelState, lv: Config.Level): LevelState {
    s.(level := Config.ToZapLevel(lv))
  }

  /** rollbackLevel(), run when the rollback timer fires: clears the timer and restores originLevel. */
  function RollbackStep(s: LevelState): LevelState {
    s.(pending := false, level := Config.ToZapLevel(s.origin))
  }

  /** TemporarySetLevel(lv, d): with no rollback pending, snapshot Level() as the origin; otherwise
      cancel the pending rollback and keep the origin. Then arm a rollback iff d > 0 and set the
      level. The result tells whether it returned (the snapshot may panic in init()). */
  function TemporaryStep(s: LevelState, config: Option<Config.Level>, lv: Config.Level, d: int): After<bool> {
    if !s.pending then
      var q := LevelQuery(s, config);
      if q.result.Panicked? then After(q.state, false)
      else After(q.state.(origin := q.result.value, pending := d > 0, level := Config.ToZapLevel(lv)), true)
    else After(s.(pending := d > 0, level := Config.ToZapLevel(lv)), true)
  }

  /** Every operation keeps the invariant that a pending rollback implies a finished init(). */
  lemma StepsPreserveValid(s: LevelState, config: Option<Config.Level>, lv: Config.Level, d: int)
    requires s.Valid()
    ensures InitStep(s, config).state.Valid()
    ensures LevelQuery(s, config).state.Valid()
    ensures SetLevelStep(s, lv).Valid()
    ensures RollbackStep(s).Valid()
    ensures TemporaryStep(s, config, lv, d).state.Valid()
  {
  }

  /** init() is one-shot: it panics only on a first call without configuration, and a second call
      changes nothing and returns. */
  lemma InitRunsOnce(s: LevelState, config: Option<Config.Level>)
    ensures !InitStep(s, config).result <==> !s.initDone && config.None?
    ensures var t := InitStep(s, config).state;
            t.initDone && InitStep(t, config) == After(t, true)
    ensures s.initDone ==> InitStep(s, config).state == s
  {
  }

  /** Level() returns the stored level when it is a member of the enum, and LevelInvalid otherwise. */
  lemma LevelReportsStoredLevel(s: LevelState, config: Option<Config.Level>)
    requires s.initDone
    ensures var q := LevelQuery(s, config);
            && q.state == s
            && (Config.IsValid(Config.FromZapLevel(s.level)) ==> q.result == Returned(Config.FromZapLevel(s.level)))
            && (!Config.IsValid(Config.FromZapLevel(s.level)) ==> q.result == Returned(Config.LevelInvalid))
  {
  }

  /** After SetLevel(lv) on an initialised logger, Level() reports lv. */
  lemma SetLevelThenLevel(s: LevelState, config: Option<Config.Level>, lv: Config.Level)
    requires s.initDone && Config.IsValid(lv)
    ensures LevelQuery(SetLevelStep(s, lv), config).result == Returned(lv)
  {
  }

  /** SetLevel changes only the current level: the origin and a pending rollback stay, so a pending
      rollback still overwrites the level SetLevel stored. */
  lemma SetLevelKeepsPendingRollback(s: LevelState, lv: Config.Level)
    ensures SetLevelStep(s, lv).origin == s.origin && SetLevelStep(s, lv).pending == s.pending
    ensures SetLevelStep(s, lv).initDone == s.initDone
    ensures RollbackStep(SetLevelStep(s, lv)) == RollbackStep(s)
  {
  }

  /** A SetLevel on a logger that has not yet been used is undone by the init() of its first use,
      which installs the configured level. */
  lemma SetLevelBeforeFirstUseIsOverwritten(s: LevelState, configured: Config.Level, lv: Config.Level)
    requires !s.initDone
    ensures LevelQuery(SetLevelStep(s, lv), Some(configured)).result == Returned(Reported(Config.ToZapLevel(configured)))
  {
  }

  /** With no rollback pending, TemporarySetLevel snapshots the (initialised) current level as the
      origin; with one pending, it cancels it and keeps the origin. */
  lemma TemporarySetLevelSnapshot(s: LevelState, config: Option<Config.Level>, lv: Config.Level, d: int)
    requires s.Valid()
    ensures var t := TemporaryStep(s, config, lv, d);
            && (s.pending ==> t.result && t.state.origin == s.origin)
            && (!s.pending && t.result ==>
                  t.state.origin == Reported(InitStep(s, config).state.level))
  {
  }

  /** When TemporarySetLevel returns, the level is lv and a rollback is pending iff d > 0. It fails
      only by the panic of a first init() without configuration, which changes nothing else. */
  lemma TemporarySetLevelArms(s: LevelState, config: Option<Config.Level>, lv: Config.Level, d: int)
    ensures var t := TemporaryStep(s, config, lv, d);
            && (t.result ==> t.state.level == Config.ToZapLevel(lv) && (t.state.pending <==> d > 0))
            && (!t.result <==> !s.pending && !s.initDone && config.None?)
            && (!t.result ==> t.state == s.(initDone := true))
  {
  }

  /** The rollback restores the origin and leaves no rollback pending. */
  lemma RollbackRestoresOrigin(s: LevelState)
    ensures RollbackStep(s).level == Config.ToZapLevel(s.origin)
    ensures !RollbackStep(s).pending
    ensures RollbackStep(s).origin == s.origin
  {
  }

  /** Two overlapping overrides roll back to the level held before the first one, not to the level
      the first one set. */
  lemma OverlappingOverridesRevertToFirstOrigin(
    s: LevelState, config: Option<Config.Level>, lv1: Config.Level, d1: int, lv2: Config.Level, d2: int)
    requires !s.pending && (s.initDone || config.Some?)
    requires d1 > 0
    ensures var first := TemporaryStep(s, config, lv1, d1);
            var second := TemporaryStep(first.state, config, lv2, d2);
            && first.result && second.result
            && RollbackStep(second.state).level == Config.ToZapLevel(Reported(InitStep(s, config).state.level))
  {
  }

  /** An override on a logger whose stored level is not an enum member rolls back to LevelInvalid,
      which Level() again reports as LevelInvalid. */
  lemma InvalidLevelRollsBackToInvalid(s: LevelState, config: Option<Config.Level>, lv: Config.Level, d: int)
    requires s.initDone && !s.pending && !Config.IsValid(Config.FromZapLevel(s.level))
    ensures var t := TemporaryStep(s, config, lv, d);
            LevelQuery(RollbackStep(t.state), config).result == Returned(Config.LevelInvalid)
  {
  }

  // ---------------------------------------------------------------------------------------------
  // What the registry's loader leaves in a logger for init() to find.

  /** As written, the loader builds the logger as &logger{} and sets neither cfg, cfgPath nor typePath. */
  function LoaderConfigAsWritten(resolved: Config.Level): Option<Config.Level> {
    None
  }

  /** Corrected: the loader keeps both the configuration it was given and the type path, so init()
      installs the level that configuration resolves for that type path, the one the loader already
      set. Keeping the configuration alone would make init() resolve the level of the empty path. */
  function LoaderConfig(resolved: Config.Level): Option<Config.Level> {
    Some(resolved)
  }

  /** As written, the first Level(), log call or TemporarySetLevel on any logger the registry built
      panics in init(); because the once guard is then spent, the calls after it go through. */
  lemma AsWrittenLoaderPanicsOnFirstUse(resolved: Config.Level, lv: Config.Level, d: int)
    ensures var s := Loaded(resolved);
            var config := LoaderConfigAsWritten(resolved);
            && LevelQuery(s, config).result == Panicked(InitPanicMsg)
            && !InitStep(s, config).result
            && !TemporaryStep(s, config, lv, d).result
            && LevelQuery(LevelQuery(s, config).state, config).result == Returned(Reported(Config.ToZapLevel(resolved)))
  {
  }

  /** With the corrected loader, init() never panics, and the first Level() reports the configured level. */
  lemma LoadedLoggerNeverPanics(s: LevelState, resolved: Config.Level, lv: Config.Level, d: int)
    ensures LevelQuery(s, LoaderConfig(resolved)).result.Returned?
    ensures InitStep(s, LoaderConfig(resolved)).result
    ensures TemporaryStep(s, LoaderConfig(resolved), lv, d).result
    ensures LevelQuery(Loaded(resolved), LoaderConfig(resolved)).result == Returned(Reported(Config.ToZapLevel(resolved)))
  {
  }

  // ---------------------------------------------------------------------------------------------
  // The gate in front of log and logln.

  /** Whether the logger's output cores accept a level: every core compares against the same atomic
      level, and a logger with no core at all (no console stream, no file) accepts nothing. */
  function Enabled(lvl: Config.ZapLevel, current: Config.ZapLevel, hasSink: bool): bool {
    hasSink && lvl >= current
  }

  /** Whether a call at lvl goes on to build its message: calls below DPanic that the cores do not
      accept return at once; calls at DPanic and above always go on. */
  function Proceeds(lvl: Config.ZapLevel, current: Config.ZapLevel, hasSink: bool): (r: bool)
    ensures lvl >= Config.ZapDPanicLevel ==> r
    ensures lvl < Config.ZapDPanicLevel && lvl < current ==> !r
    ensures lvl < Config.ZapDPanicLevel ==> (r <==> hasSink && lvl >= current)
  {
    !(lvl < Config.ZapDPanicLevel && !Enabled(lvl, current, hasSink))
  }

  // ---------------------------------------------------------------------------------------------
  // Messages.

  /** The formatting the model does not interpret: fmt.Sprintf, the text %v gives a non-string
      operand, and whether an operand other than a plain Go string is of a named type whose kind is
      string (a Console value, say), which fmt.Sprint treats like a string when spacing. */
  datatype Formatter = Formatter(
    sprintf: (string, seq<Arg>) -> string,
    operand: Arg -> string,
    stringKind: Arg -> bool)

  /** Whether fmt.Sprint sees an operand as a string: its reflect kind is String. */
  predicate IsStringOperand(fmt: Formatter, a: Arg) {
    a.StringArg? || fmt.stringKind(a)
  }

  /** The text of one operand: a string prints as itself. */
  function OperandText(fmt: Formatter, a: Arg): string {
    if a.StringArg? then a.s else fmt.operand(a)
  }

  /** fmt.Sprint: the operands' texts, with a space between two adjacent operands when neither is of
      string kind. */
  function Sprint(fmt: Formatter, args: seq<Arg>): string
    decreases |args|
  {
    if |args| == 0 then ""
    else
      var init, last := args[..|args| - 1], args[|args| - 1];
      Sprint(fmt, init)
      + (if |init| > 0 && !IsStringOperand(fmt, init[|init| - 1]) && !IsStringOperand(fmt, last) then " " else "")
      + OperandText(fmt, last)
  }

  /** Two adjacent operands are separated by a space in Sprint exactly when neither is of string
      kind, whether the string kind comes from the plain string type or from a named one. */
  lemma SprintPairSpacing(fmt: Formatter, a: Arg, b: Arg)
    ensures Sprint(fmt, [a, b])
            == OperandText(fmt, a)
               + (if IsStringOperand(fmt, a) || IsStringOperand(fmt, b) then "" else " ")
               + OperandText(fmt, b)
  {
    assert [a, b][..1] == [a];
    assert [a][..0] == [];
    assert Sprint(fmt, [a]) == OperandText(fmt, a);
  }

  /** The operands' texts, always separated by one space. */
  function Spaced(fmt: Formatter, args: seq<Arg>): string
    decreases |args|
  {
    if |args| == 0 then ""
    else if |args| == 1 then OperandText(fmt, args[0])
    else Spaced(fmt, args[..|args| - 1]) + " " + OperandText(fmt, args[|args| - 1])
  }

  /** fmt.Sprintln: the operands' texts separated by spaces, then a newline. */
  function Sprintln(fmt: Formatter, args: seq<Arg>): string {
    Spaced(fmt, args) + "\n"
  }

  /** getMessage: the template alone without arguments, Sprintf with a template, Sprint otherwise,
      with a shortcut for a single string that gives the same text as Sprint. */
  function GetMessage(fmt: Formatter, template: string, fmtArgs: seq<Arg>): (r: string)
    ensures |fmtArgs| == 0 ==> r == template
    ensures |fmtArgs| > 0 && template != "" ==> r == fmt.sprintf(template, fmtArgs)
    ensures |fmtArgs| > 0 && template == "" ==> r == Sprint(fmt, fmtArgs)
    ensures template == "" && |fmtArgs| == 1 && fmtArgs[0].StringArg? ==> r == fmtArgs[0].s
  {
    if |fmtArgs| == 0 then template
    else if template != "" then fmt.sprintf(template, fmtArgs)
    else if |fmtArgs| == 1 && fmtArgs[0].StringArg? then fmtArgs[0].s
    else Sprint(fmt, fmtArgs)
  }

  /** getMessageln: Sprintln without its final character, which is exactly the newline it appends. */
  function GetMessageln(fmt: Formatter, fmtArgs: seq<Arg>): (r: string)
    ensures r + "\n" == Sprintln(fmt, fmtArgs)
  {
    var msg := Sprintln(fmt, fmtArgs);
    msg[..|msg| - 1]
  }

  /** How a log or logln call ends. */
  datatype LogOutcome =
    | LogPanicked(reason: string)   // init() panicked
    | Dropped                       // returned at the gate, before any formatting
    | Proceeded(message: string)    // the message was built and handed to zap's Check

  // ---------------------------------------------------------------------------------------------
  // The logger object.

  /** A logger: its level fields are updated in place. */
  class Logger {
    /** The level init() installs, or None when it has no configuration and panics. */
    const config: Option<Config.Level>
    /** Whether the logger has any output core. */
    const hasSink: bool

    var level: Config.ZapLevel
    var originLevel: Config.Level
    var pending: bool
    var initDone: bool

    function State(): LevelState
      reads this
    {
      LevelState(level, originLevel, pending, initDone)
    }

    ghost predicate Valid()
      reads this
    {
      State().Valid()
    }

    /** The logger the registry's loader builds: zap.NewAtomicLevel(), then SetLevel(resolved). */
    constructor (config: Option<Config.Level>, hasSink: bool, resolved: Config.Level)
      ensures Valid() && State() == Loaded(resolved)
      ensures this.config == config && this.hasSink == hasSink
    {
      this.config := config;
      this.hasSink := hasSink;
      level := Config.ToZapLevel(resolved);
      originLevel := Config.LevelInfo;
      pending := false;
      initDone := false;
    }

    /** init(), reduced to its once guard and the level it installs. */
    method Init() returns (ok: bool)
      requires Valid()
      modifies this
      ensures Valid() && After(State(), ok) == InitStep(old(State()), config)
    {
      if initDone {
        return true;
      }
      initDone := true;
      if config.None? {
        return false;
      }
      level := Config.ToZapLevel(config.value);
      ok := true;
    }

    /** Level(): the current level, or LevelInvalid when the stored value is not an enum member. */
    method Level() returns (r: Outcome<Config.Level>)
      requires Valid()
      modifies this
      ensures Valid() && After(State(), r) == LevelQuery(old(State()), config)
    {
      var ok := Init();
      if !ok {
        return Panicked(InitPanicMsg);
      }
      var result := Config.FromZapLevel(level);
      if Config.IsValid(result) {
        r := Returned(result);
      } else {
        r := Returned(Config.LevelInvalid);
      }
    }

    /** SetLevel(lv): stores the level without touching the override. */
    method SetLevel(lv: Config.Level)
      requires Valid()
      modifies this
      ensures Valid() && State() == SetLevelStep(old(State()), lv)
    {
      level := Config.ToZapLevel(lv);
    }

    /** The rollback timer fires and runs rollbackLevel(). A callback can also run after its timer
        was cancelled, so it works whether or not a rollback is pending. */
    method Fire()
      requires Valid()
      modifies this
      ensures Valid() && State() == RollbackStep(old(State()))
    {
      if pending {
        pending := false;
      }
      SetLevel(originLevel);
    }

    /** TemporarySetLevel(lv, d): a possibly temporary override; ok is false when init() panicked. */
    method TemporarySetLevel(lv: Config.Level, d: int) returns (ok: bool)
      requires Valid()
      modifies this
      ensures Valid() && After(State(), ok) == TemporaryStep(old(State()), config, lv, d)
    {
      if !pending {
        var r := Level();
        if r.Panicked? {
          return false;
        }
        originLevel := r.value;
      } else {
        pending := false;
      }
      if d > 0 {
        pending := true;
      }
      SetLevel(lv);
      ok := true;
    }

    /** log: init(), the gate, then the message from the template and the arguments. */
    method Log(lvl: Config.ZapLevel, fmt: Formatter, template: string, fmtArgs: seq<Arg>) returns (out: LogOutcome)
      requires Valid()
      modifies this
      ensures Valid() && State() == InitStep(old(State()), config).state
      ensures out.LogPanicked? <==> !InitStep(old(State()), config).result
      ensures out.Dropped? <==> InitStep(old(State()), config).result && !Proceeds(lvl, level, hasSink)
      ensures out.Proceeded? ==> out.message == GetMessage(fmt, template, fmtArgs)
    {
      var ok := Init();
      if !ok {
        return LogPanicked(InitPanicMsg);
      }
      if lvl < Config.ZapDPanicLevel && !Enabled(lvl, level, hasSink) {
        return Dropped;
      }
      out := Proceeded(GetMessage(fmt, template, fmtArgs));
    }

    /** logln: as log, with the message built as by Sprintln. */
    method Logln(lvl: Config.ZapLevel, fmt: Formatter, fmtArgs: seq<Arg>) returns (out: LogOutcome)
      requires Valid()
      modifies this
      ensures Valid() && State() == InitStep(old(State()), config).state
      ensures out.LogPanicked? <==> !InitStep(old(State()), config).result
      ensures out.Dropped? <==> InitStep(old(State()), config).result && !Proceeds(lvl, level, hasSink)
      ensures out.Proceeded? ==> out.message == GetMessageln(fmt, fmtArgs)
    {
      var ok := Init();
      if !ok {
        return LogPanicked(InitPanicMsg);
      }
      if lvl < Config.ZapDPanicLevel && !Enabled(lvl, level, hasSink) {
        return Dropped;
      }
      out := Proceeded(GetMessageln(fmt, fmtArgs));
    }
  }

  /** Two overlapping overrides to Debug on a logger configured at Warn, the second issued before the
      first one's timer fired: Debug holds until the one remaining timer fires, then Warn is back. */
  method OverlappingOverrideScenario() returns (during: Outcome<Config.Level>, after: Outcome<Config.Level>)
    ensures during == Returned(Config.LevelDebug)
    ensures after == Returned(Config.LevelWarn)
  {
    var l := new Logger(LoaderConfig(Config.LevelWarn), true, Config.LevelWarn);
    var ok := l.TemporarySetLevel(Config.LevelDebug, 300);
    ok := l.TemporarySetLevel(Config.LevelDebug, 300);
    during := l.Level();
    l.Fire();
    after := l.Level();
  }

  /** A logger configured at Info and with an output logs one Debug, Info and Warn message, then the
      same after each of SetLevel(Debug), SetLevel(Warn) and SetLevel(Info); the messages that pass
      the gate are collected in order. */
  method ChangeLevelScenario(fmt: Formatter) returns (msgs: seq<string>)
    ensures msgs == ["info hello 1", "warn hello 1", "debug hello 2", "info hello 2",
                     "warn hello 2", "warn hello 3", "info hello 4", "warn hello 4"]
  {
    var l := new Logger(LoaderConfig(Config.LevelInfo), true, Config.LevelInfo);
    msgs := [];
    msgs := LogThree(l, fmt, "debug hello 1", "info hello 1", "warn hello 1", msgs);
    l.SetLevel(Config.LevelDebug);
    msgs := LogThree(l, fmt, "debug hello 2", "info hello 2", "warn hello 2", msgs);
    l.SetLevel(Config.LevelWarn);
    msgs := LogThree(l, fmt, "debug hello 3", "info hello 3", "warn hello 3", msgs);
    l.SetLevel(Config.LevelInfo);
    msgs := LogThree(l, fmt, "debug hello 4", "info hello 4", "warn hello 4", msgs);
  }

  /** Logs three messages at Debug, Info and Warn, collecting those that pass the gate. */
  method LogThree(l: Logger, fmt: Formatter, debug: string, info: string, warn: string, acc: seq<string>)
    returns (msgs: seq<string>)
    requires l.Valid() && l.config.Some? && l.hasSink
    modifies l
    ensures l.Valid() && l.initDone && l.level == old(if l.initDone then l.level else Config.ToZapLevel(l.config.value))
    ensures l.originLevel == old(l.originLevel) && l.pending == old(l.pending)
    ensures msgs == acc
                    + (if Config.ToZapLevel(Config.LevelDebug) >= l.level then [debug] else [])
                    + (if Config.ToZapLevel(Config.LevelInfo) >= l.level then [info] else [])
                    + (if Config.ToZapLevel(Config.LevelWarn) >= l.level then [warn] else [])
  {
    msgs := acc;
    var out := l.Log(Config.ToZapLevel(Config.LevelDebug), fmt, "", [StringArg(debug)]);
    if out.Proceeded? {
      msgs := msgs + [out.message];
    }
    out := l.Log(Config.ToZapLevel(Config.LevelInfo), fmt, "", [StringArg(info)]);
    if out.Proceeded? {
      msgs := msgs + [out.message];
    }
    out := l.Log(Config.ToZapLevel(Config.LevelWarn), fmt, "", [StringArg(warn)]);
    if out.Proceeded? {
      msgs := msgs + [out.message];
    }
  }
}
