# expgo/log — a verified model of its level control and argument handling

expgo/log wraps zap behind a per-type logger. Loggers live in a package-level registry keyed by
type path, and each logger has its own level. That level can be changed permanently
(`SetLevel`) or for a while (`TemporarySetLevel`, which arms a timer that rolls the level back).
The package-level `SetLevel`/`TemporarySetLevel` do the same for every registered logger whose
type path matches a glob. Every log call first runs the logger's one-shot `init`. It then passes a
level gate, builds its message, and turns its loose key/value arguments into zap fields with
`sweetenFields`.

This project models those parts in Dafny. There are five modules:

- `Wrappers`: `Option`, and `Outcome`, which is a value or a panic with its message.
- `Config` (config.go): the `Level` enum and its cast to zap levels, the `Console` enum, the
  rotating-file defaults, and the `Config` class with its `Init`.
- `Sweetener` (logger.go, `sweetenFields`):
  - `Scan` is a recursive reference definition of the scan.
  - `SweetenFields` is the loop of the source, proved equal to `Sweeten`.
  - Lemmas state what `Sweeten` guarantees about fields and diagnostics.
- `Logging` (logger.go):
  - the level protocol as pure step functions over a `LevelState`
    (`level`, `origin`, `pending` = a rollback timer is armed, `initDone` = the once guard has run);
  - the `Logger` class, whose methods update those fields in place and are proved equal to the
    step functions;
  - the gate `Proceeds`, and `GetMessage`/`GetMessageln`;
  - lemmas about the protocol.
- `Api` (api.go): `Must`, type-path construction, and the `Registry` class. The registry holds
  `map<string, Logger>` with get-or-create and the glob broadcast. A flag `keepsConfig` says
  whether its loader keeps the configuration (corrected) or not (as written; see Findings).

The rollback timer's firing is the explicit event `Logger.Fire`. The glob is an abstract
`string -> bool`. The level that `cfg.GetZapLevelByType(typePath)` gives a type path is the
parameter `resolved`. `fmt.Sprintf`, the text `%v` gives a non-string operand, and whether an
operand of a named type has string kind (as a `Console` value has) are the uninterpreted
functions of a `Formatter`.

## Model

| member | source | states |
|---|---|---|
| Config.LevelValuesConsecutive | config.go:50-61 | Debug is -1 and each enum member is one more than the previous one, up to Fatal = 5; a value is a member iff it lies in -1..5; LevelInvalid is not a member |
| Config.ToZapLevelPreservesOrder | config.go:65-67 | the cast to a zap level keeps order and equality in both directions and is undone by the reverse cast |
| Config.ParseConsole | config.go:38-47 | a Console value parses iff it is "no", "stdout" or "stderr", and the parsed member's name is the input |
| Config.ParseConsoleName | config.go:38-47 | every Console member parses back from its name |
| Config.Config.constructor | config.go:69-74 | a fresh configuration has Console `no` (its default), the file defaults of the struct tags, and no level patterns |
| Config.Config.Init | config.go:76-79 | Init replaces the level map by one holding exactly `"*" -> LevelInfo`, and leaves the rest alone |
| Sweetener.SweetenFields | logger.go:441-500 | the loop computes exactly the reference `Sweeten`; it never yields more fields than arguments, and empty input gives no fields and no diagnostics |
| Sweetener.SweetenBounds | logger.go:441-449 | fields and diagnostics are each no longer than the input; empty input gives nothing |
| Sweetener.SweetenKeepsInputOrder | logger.go:454-493 | every output field comes from one input argument (a prebuilt field, an error, or a string key with the value after it), and the arguments' indices strictly increase along the fields |
| Sweetener.SweetenKeepsFieldsAndPairs | logger.go:454-493 | the non-error fields are exactly the prebuilt fields and the string-keyed pairs met along the scan, in input order |
| Sweetener.SweetenErrors | logger.go:462-472 | only the first error met becomes a field; each later one gives one "multiple errors" diagnostic, in order, so there are one fewer than the errors |
| Sweetener.SweetenDanglingKey | logger.go:474-478 | exactly one "ignored key" diagnostic, for the last argument, iff the scan stops on a lone trailing key; only the non-string-keys diagnostic can follow it |
| Sweetener.SweetenNonStringKeys | logger.go:480-498 | the pairs with a non-string key are reported in one diagnostic, with their positions, iff there is at least one, and that diagnostic comes last |
| Sweetener.SweetenDiagnosticOrder | logger.go:463-498 | diagnostics come in the order multiple-errors, dangling key, non-string keys, with at most one of each of the last two |
| Sweetener.SweetenKeyValuePairs | logger.go:480-492 | two string-keyed pairs become two fields in order, with no diagnostic |
| Logging.StepsPreserveValid | logger.go:151-181 | every step keeps "a pending rollback implies a finished init" |
| Logging.InitRunsOnce | logger.go:42-58 | init panics iff it is the first call and there is no configuration; a second call changes nothing and returns |
| Logging.LevelReportsStoredLevel | logger.go:134-144 | Level() returns the stored level when it is an enum member, LevelInvalid otherwise, and changes nothing once initialised |
| Logging.SetLevelThenLevel | api_test.go:95-108 | after SetLevel(lv) on an initialised logger, Level() reports lv |
| Logging.SetLevelKeepsPendingRollback | logger.go:146-161 | SetLevel leaves the origin, the pending marker and init alone, so a pending rollback ends in the same state with or without it |
| Logging.SetLevelBeforeFirstUseIsOverwritten | logger.go:42-58 | a SetLevel before the first use is replaced by the configured level that init installs |
| Logging.TemporarySetLevelSnapshot | logger.go:167-172 | with no rollback pending the origin becomes the current (initialised) level; with one pending the origin is kept |
| Logging.TemporarySetLevelArms | logger.go:174-180 | when it returns, the level is lv and a rollback is pending iff d > 0; it fails only by a first init without configuration, which changes nothing else |
| Logging.RollbackRestoresOrigin | logger.go:151-161 | the rollback sets the level to the origin and leaves no rollback pending |
| Logging.OverlappingOverridesRevertToFirstOrigin | logger.go:163-181 | two overlapping overrides roll back to the level held before the first one |
| Logging.InvalidLevelRollsBackToInvalid | logger.go:134-144 | a stored level outside the enum is snapshotted as LevelInvalid and reported as such after the rollback |
| Logging.AsWrittenLoaderPanicsOnFirstUse | api.go:116-118 | as the loader is written, the first Level(), log call or TemporarySetLevel of a registered logger panics, and the calls after it go through |
| Logging.LoadedLoggerNeverPanics | logger.go:42-58 | with the configuration kept, init never panics and the first Level() reports the configured level |
| Logging.Proceeds | logger.go:390-396 | a call at DPanic or above always proceeds; below DPanic it proceeds iff the logger has an output and the level is at least the current one |
| Logging.GetMessage | logger.go:418-433 | no arguments give the template; a template gives Sprintf; no template gives Sprint, and a single string argument is returned verbatim |
| Logging.SprintPairSpacing | logger.go:432 | Sprint puts a space between two operands exactly when neither has string kind, whether of the plain string type or of a named one |
| Logging.GetMessageln | logger.go:435-439 | the message followed by a newline is exactly Sprintln of the arguments |
| Logging.Logger.constructor | api.go:117-135 | a new logger holds the resolved level, the Info origin, no pending rollback, and has not run init |
| Logging.Logger.Init | logger.go:42-58 | the once guard: the new state and result are those of InitStep |
| Logging.Logger.Level | logger.go:134-144 | the new state and result are those of LevelQuery |
| Logging.Logger.SetLevel | logger.go:146-149 | only the level changes, as SetLevelStep says |
| Logging.Logger.Fire | logger.go:151-161 | the timer callback clears the marker and restores the origin, as RollbackStep says |
| Logging.Logger.TemporarySetLevel | logger.go:163-181 | the new state and result are those of TemporaryStep |
| Logging.Logger.Log | logger.go:390-402 | init runs first; the call panics iff init does, is dropped iff the gate refuses it, and otherwise carries the GetMessage text |
| Logging.Logger.Logln | logger.go:404-415 | as Log, with the GetMessageln text |
| Logging.OverlappingOverrideScenario | example/log_test.go:23-40 | a logger at Warn overridden twice to Debug reports Debug until the one remaining timer fires, then Warn |
| Logging.ChangeLevelScenario | api_test.go:82-115 | a logger at Info lets through exactly the expected eight of twelve messages around SetLevel(Debug), SetLevel(Warn), SetLevel(Info) |
| Api.Must | api.go:20-25 | the logger is returned iff there is no error; otherwise it panics with the error |
| Api.TypePathOfNamed | api.go:66-70 | the type path is package path, ".", type name; one pointer level is stripped; a pointer to a pointer gives "." |
| Api.AfterLastDotOfTypePath | api.go:85-89 | the type name is recovered from a type path as what follows its last "." |
| Api.TypePathInjective | api.go:85-89 | defined types whose names hold no "." have distinct type paths |
| Api.Registry.constructor | api.go:16 | the registry starts empty, with the loader chosen by `keepsConfig` |
| Api.Registry.NewWithTypePathAndConfig | api.go:115-201 | get-or-create: a known type path returns its logger and changes nothing; a new one registers a fresh logger at the resolved level, holding the configuration exactly when the loader keeps it; entries are only added |
| Api.Registry.TemporarySetLevel | api.go:207-221 | every visited logger whose key matches gets the per-logger override; the first override that panics ends the loop, so the keys not yet visited keep their state; without a panic every key is visited, and with the configuration kept no override panics; unmatched loggers are unchanged and no entry is added or removed |
| Api.Registry.SetLevel | api.go:203-205 | it is the override with d = 0: every matching logger it reaches without a panic holds lv with no rollback pending; it stops at the same panic as the override; the others are unchanged |
| Api.SameTypePathTwice | api.go:116-135 | two requests for one type path, with different configurations, give the same logger, at the level and with the output the first request's configuration gives |
| Api.AsWrittenBroadcastScenario | api.go:207-221 | with the loader as written, a broadcast over two fresh loggers panics at the first one it visits: neither gets the new level, and exactly one has used up its init |

## Left out

- zap cores, encoders, the tee, the console writer, lumberjack rotation, naming and caller options
  (logger.go:60-130, api.go:120-191): library wiring and I/O. A logger keeps only `hasSink`,
  whether it has any output core. That is what the gate's `Core().Enabled` depends on, because
  every core shares the logger's atomic level and a tee of no cores enables nothing.
- The text formatting of `fmt.Sprintf` and of `%v`, zap's field encoding (`zap.Any`, `zap.Error`,
  the invalid-pairs array marshalling), and what `Check`/`Write` do after the gate: foreign code.
  Sprint's and Sprintln's spacing rules are modelled over uninterpreted operand texts; whether an
  operand of a named type has string kind, which Sprint's spacing depends on, is the
  `Formatter`'s `stringKind`.
- `sync.Mutex`, the timer goroutine, and the race between `Stop` and a callback already running:
  concurrency. The once guard is a boolean, and the timer's firing is the sequential event
  `Logger.Fire`, which tolerates firing with no rollback pending. Durations matter only through
  `d > 0`.
- Glob compilation and matching (gobwas/glob), including the `MustCompile` panic: a foreign
  library. The glob is an abstract predicate on keys.
- Configuration loading (`config.New`), `GetZapLevelByType` and `GetName`. They are foreign or not
  part of this model, so the per-type level resolution (longest matching pattern) is not modelled.
  Its result is the parameter `resolved`. A failure of `config.New` inside `init` is folded into
  the one panic of an unconfigured `init`.
- The process effects of Panic, DPanic and Fatal (panic, `os.Exit`), and `Sync`.
- The fixed-level verbs (`Debug`, `Infof`, `Warnw`, ...): each is `log`/`logln` at a constant
  level, which `Logger.Log`/`Logger.Logln` take as a parameter.
- The package functions `Log`, `LogWithConfigPath`, `New`, `NewWithConfigPath` and
  `NewWithTypePathAndConfigPath`: compositions of configuration loading, `TypePath`, `Must` and
  `NewWithTypePathAndConfig`.
- The annotation code generator: build-time glue.
- Logging.Logger.Log: the sweetened context fields written with the record are not part of its
  result. `Sweetener.SweetenFields` models them on their own.
- Sweetener.SweetenFields: the diagnostics the source writes through `l.base.Error` are returned
  as a list, in the order they would be written. Being Error-level writes, they pass the gate
  like any Error call, so they are dropped when the logger's level is above Error; that filtering
  is not modelled.
- Api.Registry.NewWithTypePathAndConfig: a registry builds either corrected loggers or loggers
  as the loader is written (`keepsConfig`), never a mix of the two.

Where the code and its design description differ, the model follows the code:

- A bare per-logger `SetLevel` does not cancel a pending rollback, so the rollback later
  overwrites it (`SetLevelKeepsPendingRollback`). Only the package-level `SetLevel`, being the
  d = 0 override, cancels it.
- Calls at DPanic and above are never dropped at the gate.
- config.go's `Console` is a string enum with no `Stream` or `Encoder` field, although api.go
  reads `cfg.Console.Stream`. The model uses the enum.

## Findings

| source | as written | input that shows it | evidently intended | confidence | as-written member | corrected member |
|---|---|---|---|---|---|---|
| api.go:116-118 | the loader builds the logger as `&logger{}` and sets neither `cfg` nor `cfgPath`, and not `typePath`, so its first `init` (logger.go:44-47) panics with "cfgPath or cfg must set one"; a package `SetLevel` or `TemporarySetLevel` then panics at the first matching logger not yet used, and the loggers after it are not visited | any first `Level()`, log call or `TemporarySetLevel` on a logger obtained from `NewWithTypePathAndConfig`, e.g. `Log[T]().Info("x")` | the logger keeps both the configuration it was built from and its type path, so `init` resolves, for that type path, the same level api.go:135 installed, and never panics | not executed | Logging.AsWrittenLoaderPanicsOnFirstUse, Api.AsWrittenBroadcastScenario | Logging.LoadedLoggerNeverPanics, Api.Registry.TemporarySetLevel |
