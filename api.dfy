/** Model of the package-level API (api.go): Must, the type path a logger is registered under, the
    registry of loggers keyed by type path, and the broadcast level control over it. */
module Api {
  import opened Wrappers
  import Config
  import Logging

  /** Must: the logger when there is no error; a panic carrying the error otherwise. */
  function Must<L(==)>(log: L, err: Option<string>): (r: Outcome<L>)
    ensures err.None? <==> r == Returned(log)
    ensures err.Some? ==> r == Panicked(err.value)
  {
    match err
    case None => Returned(log)
    case Some(e) => Panicked(e)
  }

  // ---------------------------------------------------------------------------------------------
  // Type paths.

  /** The part of a Go reflect.Type the type path depends on: a defined type, or a pointer type. */
  datatype GoType = Named(pkgPath: string, name: string) | PointerTo(elem: GoType)

  /** reflect.Type.PkgPath(): empty for a pointer type. */
  function PkgPath(t: GoType): string {
    if t.Named? then t.pkgPath else ""
  }

  /** reflect.Type.Name(): empty for a pointer type. */
  function Name(t: GoType): string {
    if t.Named? then t.name else ""
  }

  /** The type path: one pointer level stripped, then the package path, ".", and the type name. */
  function TypePath(t: GoType): string {
    var vt := if t.PointerTo? then t.elem else t;
    PkgPath(vt) + "." + Name(vt)
  }

  /** The type path of a defined type is its package path and name joined by "."; a pointer to it
      (what new(T) and (*T)(nil) give) has the same path, and a pointer to a pointer type has the
      path ".". */
  lemma TypePathOfNamed(pkgPath: string, name: string, u: GoType)
    ensures TypePath(Named(pkgPath, name)) == pkgPath + "." + name
    ensures TypePath(PointerTo(Named(pkgPath, name))) == pkgPath + "." + name
    ensures TypePath(PointerTo(PointerTo(u))) == "."
  {
  }

  /** What follows the last "." of a string (the whole string when it holds none). */
  function AfterLastDot(s: string): string
    decreases |s|
  {
    if |s| == 0 then ""
    else if s[|s| - 1] == '.' then ""
    else AfterLastDot(s[..|s| - 1]) + [s[|s| - 1]]
  }

  /** A name without "." is recovered from a type path as what follows its last ".". */
  lemma {:induction false} AfterLastDotOfTypePath(pkgPath: string, name: string)
    requires '.' !in name
    ensures AfterLastDot(pkgPath + "." + name) == name
    decreases |name|
  {
    var s := pkgPath + "." + name;
    if |name| == 0 {
      assert s[|s| - 1] == '.';
    } else {
      var init := name[..|name| - 1];
      assert s[..|s| - 1] == pkgPath + "." + init;
      assert s[|s| - 1] == name[|name| - 1];
      AfterLastDotOfTypePath(pkgPath, init);
      assert init + [name[|name| - 1]] == name;
    }
  }

  /** Distinct defined types get distinct type paths when their names hold no "." (a declared Go
      identifier never does; the name of an instantiated generic type, which lists its type arguments
      with their package paths, can, and is not covered): the name is what follows the last ".", the
      package path what precedes it. */
  lemma TypePathInjective(a: GoType, b: GoType)
    requires a.Named? && b.Named?
    requires '.' !in a.name && '.' !in b.name
    requires TypePath(a) == TypePath(b)
    ensures a == b
  {
    var s := TypePath(a);
    assert s == a.pkgPath + "." + a.name;
    assert s == b.pkgPath + "." + b.name;
    AfterLastDotOfTypePath(a.pkgPath, a.name);
    AfterLastDotOfTypePath(b.pkgPath, b.name);
    assert a.pkgPath == s[..|a.pkgPath|];
    assert b.pkgPath == s[..|b.pkgPath|];
  }

  // ---------------------------------------------------------------------------------------------
  // The registry.

  /** The package-level cache of loggers, keyed by type path. keepsConfig says which loader builds
      its loggers: the one as written, which keeps no configuration (so every logger panics on its
      first use), or the corrected one, which keeps it. */
  class Registry {
    const keepsConfig: bool
    var logs: map<string, Logging.Logger>

    /** The registry's invariant. */
    ghost predicate Valid()
      reads this, logs.Values
    {
      Distinct() && LoggersValid()
    }

    /** No logger is registered under two keys. */
    ghost predicate Distinct()
      reads this
    {
      forall k1, k2 | k1 in logs && k2 in logs && k1 != k2 :: logs[k1] != logs[k2]
    }

    /** Every registered logger keeps its own invariant and holds a configuration exactly when the
        registry's loader keeps one. */
    ghost predicate LoggersValid()
      reads this, logs.Values
    {
      forall k | k in logs :: logs[k].Valid() && (logs[k].config.Some? <==> keepsConfig)
    }

    constructor (keepsConfig: bool)
      ensures Valid() && logs == map[] && this.keepsConfig == keepsConfig
    {
      this.keepsConfig := keepsConfig;
      logs := map[];
    }

    /** NewWithTypePathAndConfig: the logger registered under typePath; the first request builds it
        and sets its level to resolved, the level cfg gives that type path, and later requests
        return the same logger untouched. Entries are only ever added. */
    method NewWithTypePathAndConfig(typePath: string, cfg: Config.Config, resolved: Config.Level)
      returns (l: Logging.Logger)
      requires Valid()
      modifies this
      ensures Valid()
      ensures typePath in logs && logs[typePath] == l
      ensures typePath in old(logs) ==> logs == old(logs) && l == old(logs)[typePath]
      ensures typePath !in old(logs) ==>
                && fresh(l) && logs == old(logs)[typePath := l]
                && l.State() == Logging.Loaded(resolved)
                && l.config == (if keepsConfig then Logging.LoaderConfig(resolved)
                                else Logging.LoaderConfigAsWritten(resolved))
                && l.hasSink == cfg.HasSink()
      ensures old(logs).Keys <= logs.Keys
    {
      if typePath in logs {
        return logs[typePath];
      }
      var config := if keepsConfig then Logging.LoaderConfig(resolved) else Logging.LoaderConfigAsWritten(resolved);
      l := new Logging.Logger(config, cfg.HasSink(), resolved);
      logs := logs[typePath := l];
    }

    /** The package-level TemporarySetLevel: the keys are visited in no particular order, and every
        visited logger whose key the glob matches gets the per-logger override. That override panics
        on a logger whose first init() panics, and the panic ends the broadcast: failed names that
        logger, the keys not yet visited are left as they were, and ok is false. Without a panic
        every key is visited. Loggers the glob does not match are never touched, and no entry is
        added or removed. */
    method TemporarySetLevel(glob: string -> bool, lv: Config.Level, d: int)
      returns (ok: bool, ghost visited: set<string>, ghost failed: Option<string>)
      requires Valid()
      modifies logs.Values
      ensures Valid() && logs == old(logs)
      ensures visited <= logs.Keys
      ensures ok ==> visited == logs.Keys
      ensures ok <==> failed.None?
      ensures keepsConfig ==> ok
      ensures failed.Some? ==>
                && failed.value in visited && glob(failed.value)
                && !Logging.TemporaryStep(old(logs[failed.value].State()), logs[failed.value].config, lv, d).result
      ensures forall k | k in visited && glob(k) && failed != Some(k) ::
                Logging.TemporaryStep(old(logs[k].State()), logs[k].config, lv, d).result
      ensures forall k | k in visited && glob(k) ::
                logs[k].State() == Logging.TemporaryStep(old(logs[k].State()), logs[k].config, lv, d).state
      ensures forall k | k in logs && (k !in visited || !glob(k)) :: logs[k].State() == old(logs[k].State())
    {
      ghost var before := map k | k in logs :: logs[k].State();
      var todo := logs.Keys;
      ok, visited, failed := true, {}, None;
      while todo != {} && ok
        invariant todo <= logs.Keys && visited == logs.Keys - todo
        invariant LoggersValid()
        invariant ok <==> failed.None?
        invariant keepsConfig ==> ok
        invariant Broadcast(before, visited, failed, glob, lv, d)
        decreases todo
      {
        var key :| key in todo;
        ok, visited, failed := Visit(key, glob, lv, d, before, visited);
        todo := todo - {key};
      }
    }

    /** The broadcast so far, from the states before it: every visited logger the glob matches holds
        the override (which panicked only on failed), and every other logger is as it was. */
    ghost predicate Broadcast(
      before: map<string, Logging.LevelState>, visited: set<string>, failed: Option<string>,
      glob: string -> bool, lv: Config.Level, d: int)
      reads this, logs.Values
    {
      && visited <= logs.Keys && logs.Keys <= before.Keys
      && (failed.Some? ==>
            && failed.value in visited && glob(failed.value)
            && !Logging.TemporaryStep(before[failed.value], logs[failed.value].config, lv, d).result)
      && forall k | k in logs ::
           if k in visited && glob(k) then
             var step := Logging.TemporaryStep(before[k], logs[k].config, lv, d);
             logs[k].State() == step.state && (failed != Some(k) ==> step.result)
           else
             logs[k].State() == before[k]
    }

    /** One step of the broadcast: the logger under key is visited, and overridden when the glob
        matches it. */
    method Visit(
      key: string, glob: string -> bool, lv: Config.Level, d: int,
      ghost before: map<string, Logging.LevelState>, ghost visited: set<string>)
      returns (ok: bool, ghost visited': set<string>, ghost failed: Option<string>)
      requires Distinct() && LoggersValid() && key in logs && key !in visited
      requires Broadcast(before, visited, None, glob, lv, d)
      modifies logs[key]
      ensures LoggersValid() && visited' == visited + {key}
      ensures ok <==> failed.None?
      ensures keepsConfig ==> ok
      ensures Broadcast(before, visited', failed, glob, lv, d)
    {
      visited', failed := visited + {key}, None;
      ok := true;
      if glob(key) {
        ok := OverrideOne(key, lv, d);
        if !ok {
          failed := Some(key);
        }
      }
    }

    /** The per-logger override on the logger under key, leaving every other logger alone; ok is
        false when it panicked, which a logger holding a configuration never does. */
    method OverrideOne(key: string, lv: Config.Level, d: int) returns (ok: bool)
      requires Distinct() && LoggersValid() && key in logs
      modifies logs[key]
      ensures LoggersValid()
      ensures Logging.After(logs[key].State(), ok)
              == Logging.TemporaryStep(old(logs[key].State()), logs[key].config, lv, d)
      ensures logs[key].config.Some? ==> ok
      ensures forall k | k in logs && k != key :: logs[k].State() == old(logs[k].State())
    {
      var l := logs[key];
      assert forall k | k in logs && k != key :: logs[k] != l;
      ok := l.TemporarySetLevel(lv, d);
      Logging.TemporarySetLevelArms(old(l.State()), l.config, lv, d);
    }

    /** The package-level SetLevel is TemporarySetLevel with no duration, so on every matching
        logger it reaches without a panic it sets the level and cancels a pending rollback. */
    method SetLevel(glob: string -> bool, lv: Config.Level)
      returns (ok: bool, ghost visited: set<string>, ghost failed: Option<string>)
      requires Valid()
      modifies logs.Values
      ensures Valid() && logs == old(logs)
      ensures visited <= logs.Keys
      ensures ok ==> visited == logs.Keys
      ensures ok <==> failed.None?
      ensures keepsConfig ==> ok
      ensures failed.Some? ==>
                && failed.value in visited && glob(failed.value)
                && !Logging.TemporaryStep(old(logs[failed.value].State()), logs[failed.value].config, lv, 0).result
      ensures forall k | k in visited && glob(k) && failed != Some(k) ::
                Logging.TemporaryStep(old(logs[k].State()), logs[k].config, lv, 0).result
      ensures forall k | k in visited && glob(k) ::
                logs[k].State() == Logging.TemporaryStep(old(logs[k].State()), logs[k].config, lv, 0).state
      ensures forall k | k in visited && glob(k) && failed != Some(k) ::
                logs[k].level == Config.ToZapLevel(lv) && !logs[k].pending
      ensures forall k | k in logs && (k !in visited || !glob(k)) :: logs[k].State() == old(logs[k].State())
    {
      ok, visited, failed := TemporarySetLevel(glob, lv, 0);
      forall k | k in visited && glob(k) && failed != Some(k)
        ensures logs[k].level == Config.ToZapLevel(lv) && !logs[k].pending
      {
        Logging.TemporarySetLevelArms(old(logs[k].State()), logs[k].config, lv, 0);
      }
    }
  }

  /** Two requests for the same type path give the same logger, whose level is the one resolved from
      the first request's configuration; the second request's loader never runs, so its
      configuration is ignored. */
  method SameTypePathTwice(
    r: Registry, typePath: string, cfg1: Config.Config, first: Config.Level,
    cfg2: Config.Config, second: Config.Level)
    returns (a: Logging.Logger, b: Logging.Logger)
    requires r.Valid() && typePath !in r.logs
    modifies r
    ensures r.Valid() && a == b
    ensures b.State() == Logging.Loaded(first) && b.hasSink == cfg1.HasSink()
  {
    a := r.NewWithTypePathAndConfig(typePath, cfg1, first);
    b := r.NewWithTypePathAndConfig(typePath, cfg2, second);
  }

  /** As written, a broadcast over two fresh loggers ends at the first one it visits: that logger's
      init() panics, the panic ends the loop, and the other logger is never visited. Neither gets
      the new level, and exactly one of them has had its init() used up. */
  method AsWrittenBroadcastScenario(cfg: Config.Config, r1: Config.Level, r2: Config.Level, lv: Config.Level)
    returns (ok: bool, a: Logging.Logger, b: Logging.Logger)
    ensures !ok
    ensures a.level == Config.ToZapLevel(r1) && b.level == Config.ToZapLevel(r2)
    ensures !a.pending && !b.pending
    ensures a.initDone != b.initDone
  {
    var r := new Registry(false);
    a := r.NewWithTypePathAndConfig("pkg/a.A", cfg, r1);
    b := r.NewWithTypePathAndConfig("pkg/b.B", cfg, r2);
    assert r.logs == map["pkg/a.A" := a, "pkg/b.B" := b];
    ghost var sa, sb := a.State(), b.State();
    Logging.TemporarySetLevelArms(sa, a.config, lv, 0);
    Logging.TemporarySetLevelArms(sb, b.config, lv, 0);
    ghost var visited, failed;
    ok, visited, failed := r.SetLevel(k => true, lv);
    assert !ok by {
      assert ok ==> "pkg/a.A" in visited;
    }
    var other := if failed.value == "pkg/a.A" then "pkg/b.B" else "pkg/a.A";
    assert other !in visited;
  }
}
