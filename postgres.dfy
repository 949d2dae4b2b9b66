/** The connection factory: it completes the configuration, opens the
    object-relational mapper on the connection string, applies the pool limits
    through the underlying SQL handle, and installs the query logger. The
    mapper and the SQL handle are one abstract `Driver` object that can fail to
    open, can fail to hand out its handle, and records what it is told. */
module Postgres {
  import opened Wrappers
  import opened Configuration
  import opened Logging

  const DefaultTimezone := "Asia/Jakarta"
  const ConnectPrefix := "failed to connect database; "
  const SqlDbPrefix := "failed to get sql db; "

  /** The logger configuration `SetLogger` installs: 200ms slow threshold,
      colour, record-not-found errors reported, parameters kept, level Warn. */
  const DefaultLoggerConfig := LoggerConfig(200 * Millisecond, true, false, false, LevelWarn)

  /** The caller's `*Config`: the factory writes the timezone default back. */
  class ConfigCell {
    var value: Config

    constructor (value: Config)
      ensures this.value == value
    {
      this.value := value;
    }
  }

  /** A pool limit handed to the SQL handle. */
  datatype PoolCall = MaxOpen(n: int) | MaxIdle(n: int)

  /** The logger the mapper reports statements to. */
  datatype LoggerSlot = MapperDefault | Installed(logger: DbLogger)

  /** The next handle request's outcome, with a script of outcomes: once
      the script is used up, every request succeeds. */
  function NextHandle(script: seq<Option<string>>): Option<string> {
    if script == [] then None else script[0]
  }

  function AfterHandle(script: seq<Option<string>>): (rest: seq<Option<string>>)
    ensures script != [] ==> script == [script[0]] + rest
    ensures script == [] ==> rest == []
  {
    if script == [] then [] else script[1..]
  }

  /** The mapper on an abstract driver. `openError` is what opening it
      reports; `handleErrors` scripts what successive requests for the SQL
      handle report; `dsns`, `pool` and `logger` record what it was told. */
  class Driver {
    const openError: Option<string>
    var handleErrors: seq<Option<string>>
    var dsns: seq<string>
    var pool: seq<PoolCall>
    var logger: LoggerSlot

    constructor (openError: Option<string>, handleErrors: seq<Option<string>>)
      ensures this.openError == openError && this.handleErrors == handleErrors
      ensures dsns == [] && pool == [] && logger == MapperDefault
    {
      this.openError := openError;
      this.handleErrors := handleErrors;
      dsns := [];
      pool := [];
      logger := MapperDefault;
    }

    /** Opening on a connection string, with an empty mapper configuration:
        the opened mapper reports to the mapper's default logger. */
    method Open(dsn: string) returns (err: Option<string>)
      modifies this
      ensures err == openError
      ensures dsns == old(dsns) + [dsn]
      ensures logger == MapperDefault
      ensures handleErrors == old(handleErrors) && pool == old(pool)
    {
      dsns := dsns + [dsn];
      logger := MapperDefault;
      err := openError;
    }

    /** Asking for the underlying SQL handle. */
    method Handle() returns (err: Option<string>)
      modifies this
      ensures err == NextHandle(old(handleErrors))
      ensures handleErrors == AfterHandle(old(handleErrors))
      ensures dsns == old(dsns) && pool == old(pool) && logger == old(logger)
    {
      err := NextHandle(handleErrors);
      handleErrors := AfterHandle(handleErrors);
    }

    method SetMaxOpenConns(n: int)
      modifies this
      ensures pool == old(pool) + [MaxOpen(n)]
      ensures handleErrors == old(handleErrors) && dsns == old(dsns) && logger == old(logger)
    {
      pool := pool + [MaxOpen(n)];
    }

    method SetMaxIdleConns(n: int)
      modifies this
      ensures pool == old(pool) + [MaxIdle(n)]
      ensures handleErrors == old(handleErrors) && dsns == old(dsns) && logger == old(logger)
    {
      pool := pool + [MaxIdle(n)];
    }
  }

  /** What a step of the factory leaves behind: its error, the pool calls it
      made, and the handle outcomes not yet used. */
  datatype Outcome = Outcome(err: Option<string>, pool: seq<PoolCall>, script: seq<Option<string>>)

  /** A pool setter: it either fails to get the handle, reporting the wrapped
      message and applying nothing, or applies exactly `call`. */
  function Setter(script: seq<Option<string>>, call: PoolCall): (r: Outcome)
    ensures r.script == AfterHandle(script)
    ensures r.err.None? <==> r.pool == [call]
    ensures r.err.None? <==> NextHandle(script).None?
    ensures r.err.Some? ==> r.pool == [] && r.err.value == SqlDbPrefix + NextHandle(script).value
  {
    var h := NextHandle(script);
    if h.Some? then Outcome(Some(SqlDbPrefix + h.value), [], AfterHandle(script))
    else Outcome(None, [call], AfterHandle(script))
  }

  /** The timezone default, filled in only when the timezone is empty. */
  function WithDefaultTimezone(c: Config): (r: Config)
    ensures r.timezone != ""
    ensures r == c.(timezone := r.timezone)
    ensures c.timezone != "" ==> r == c
    ensures c.timezone == "" ==> r.timezone == DefaultTimezone
  {
    if c.timezone == "" then c.(timezone := DefaultTimezone) else c
  }

  /** The guard on the maximum-pool step, as written (`<= 0`) and as evidently
      intended (`> 0`). */
  datatype Guard = AsWritten | Intended

  predicate Admits(g: Guard, n: int) {
    match g
    case AsWritten => n <= 0
    case Intended => n > 0
  }

  /** The factory after the timezone default: the open, then the guarded
      maximum step, then the minimum step, each failure returning at once. */
  function Factory(cfg: Config, openError: Option<string>, script: seq<Option<string>>, g: Guard): Outcome {
    if openError.Some? then Outcome(Some(ConnectPrefix + openError.value), [], script)
    else
      var maxStep :=
        if Admits(g, cfg.maxConnectionPool) then Setter(script, MaxOpen(cfg.maxConnectionPool))
        else Outcome(None, [], script);
      if maxStep.err.Some? then maxStep
      else
        var minStep := Setter(maxStep.script, MaxIdle(cfg.minConnectionPool));
        Outcome(minStep.err, maxStep.pool + minStep.pool, minStep.script)
  }

  /** The pool calls a fully successful factory makes, in order. */
  function Plan(cfg: Config, g: Guard): (p: seq<PoolCall>)
    ensures |p| == (if Admits(g, cfg.maxConnectionPool) then 2 else 1)
    ensures p[|p| - 1] == MaxIdle(cfg.minConnectionPool)
  {
    (if Admits(g, cfg.maxConnectionPool) then [MaxOpen(cfg.maxConnectionPool)] else [])
      + [MaxIdle(cfg.minConnectionPool)]
  }

  /** How many handle requests a successful run makes. */
  function Requests(cfg: Config, g: Guard): nat {
    if Admits(g, cfg.maxConnectionPool) then 2 else 1
  }

  /** None of the first `k` handle requests fails. */
  predicate HandlesSucceed(script: seq<Option<string>>, k: nat) {
    forall i :: 0 <= i < k && i < |script| ==> script[i].None?
  }

  /** The connection layer over a driver: the mapper it opened and the query
      logger `SetLogger` last built (`None` before that, a nil pointer). */
  class PostgreSQL {
    const gorm: Driver
    var dbLogger: Option<DbLogger>

    constructor (gorm: Driver)
      ensures this.gorm == gorm && dbLogger == None
    {
      this.gorm := gorm;
      dbLogger := None;
    }

    /** `SetMaxConnectionPool`: applies `n` as the open-connection limit, unless
        the handle cannot be had. */
    method SetMaxConnectionPool(n: int) returns (err: Option<string>)
      modifies gorm
      ensures var r := Setter(old(gorm.handleErrors), MaxOpen(n));
        err == r.err && gorm.pool == old(gorm.pool) + r.pool && gorm.handleErrors == r.script
      ensures gorm.dsns == old(gorm.dsns) && gorm.logger == old(gorm.logger)
    {
      var e := gorm.Handle();
      if e.Some? {
        return Some(SqlDbPrefix + e.value);
      }
      gorm.SetMaxOpenConns(n);
      return None;
    }

    /** `SetMinConnectionPool`: applies `n` as the idle-connection limit, unless
        the handle cannot be had. */
    method SetMinConnectionPool(n: int) returns (err: Option<string>)
      modifies gorm
      ensures var r := Setter(old(gorm.handleErrors), MaxIdle(n));
        err == r.err && gorm.pool == old(gorm.pool) + r.pool && gorm.handleErrors == r.script
      ensures gorm.dsns == old(gorm.dsns) && gorm.logger == old(gorm.logger)
    {
      var e := gorm.Handle();
      if e.Some? {
        return Some(SqlDbPrefix + e.value);
      }
      gorm.SetMaxIdleConns(n);
      return None;
    }

    /** `SetLogger`: builds the standard logger on `writer` and makes it both
        this object's logger and the one the mapper reports to. */
    method SetLogger(writer: Writer)
      modifies this, gorm
      ensures dbLogger == Some(NewLogger(writer, DefaultLoggerConfig))
      ensures gorm.logger == Installed(dbLogger.value)
      ensures gorm.pool == old(gorm.pool) && gorm.dsns == old(gorm.dsns) && gorm.handleErrors == old(gorm.handleErrors)
    {
      var l := NewLogger(writer, DefaultLoggerConfig);
      dbLogger := Some(l);
      gorm.logger := Installed(l);
    }

    /** `DebugMode`: the mapper reports to an Info-level copy of the logger;
        this object's own logger keeps its level. A missing logger is a nil
        dereference in the source, hence the precondition. */
    method DebugMode()
      requires dbLogger.Some?
      modifies gorm
      ensures gorm.logger == Installed(LogMode(dbLogger.value, LevelInfo))
      ensures gorm.pool == old(gorm.pool) && gorm.dsns == old(gorm.dsns) && gorm.handleErrors == old(gorm.handleErrors)
    {
      gorm.logger := Installed(LogMode(dbLogger.value, LevelInfo));
    }
  }

  /** The factory under either guard: the timezone default is written back
      into the caller's configuration before the connection string is built;
      the result is the new object exactly when no step failed. */
  method Create(cfg: ConfigCell, driver: Driver, g: Guard) returns (db: PostgreSQL?, err: Option<string>)
    modifies cfg, driver
    ensures cfg.value == WithDefaultTimezone(old(cfg.value))
    ensures driver.dsns == old(driver.dsns) + [DSN(cfg.value)]
    ensures var r := Factory(cfg.value, driver.openError, old(driver.handleErrors), g);
      err == r.err && driver.pool == old(driver.pool) + r.pool && driver.handleErrors == r.script
    ensures driver.logger == MapperDefault
    ensures db == null <==> err.Some?
    ensures db != null ==> fresh(db) && db.gorm == driver && db.dbLogger == None
  {
    if cfg.value.timezone == "" {
      cfg.value := cfg.value.(timezone := DefaultTimezone);
    }
    var openErr := driver.Open(DSN(cfg.value));
    if openErr.Some? {
      return null, Some(ConnectPrefix + openErr.value);
    }
    var created := new PostgreSQL(driver);
    if Admits(g, cfg.value.maxConnectionPool) {
      var e := created.SetMaxConnectionPool(cfg.value.maxConnectionPool);
      if e.Some? {
        return null, e;
      }
    }
    var e := created.SetMinConnectionPool(cfg.value.minConnectionPool);
    if e.Some? {
      return null, e;
    }
    return created, None;
  }

  /** `CreatePostgreSQL` as written: the maximum step runs only for a
      non-positive maximum. */
  method CreatePostgreSQL(cfg: ConfigCell, driver: Driver) returns (db: PostgreSQL?, err: Option<string>)
    modifies cfg, driver
    ensures cfg.value == WithDefaultTimezone(old(cfg.value))
    ensures driver.dsns == old(driver.dsns) + [DSN(cfg.value)]
    ensures var r := Factory(cfg.value, driver.openError, old(driver.handleErrors), AsWritten);
      err == r.err && driver.pool == old(driver.pool) + r.pool && driver.handleErrors == r.script
    ensures driver.logger == MapperDefault
    ensures db == null <==> err.Some?
    ensures db != null ==> fresh(db) && db.gorm == driver && db.dbLogger == None
  {
    db, err := Create(cfg, driver, AsWritten);
  }

  /** The factory with the guard evidently intended: a positive maximum is
      applied. */
  method CreatePostgreSQLCorrected(cfg: ConfigCell, driver: Driver) returns (db: PostgreSQL?, err: Option<string>)
    modifies cfg, driver
    ensures cfg.value == WithDefaultTimezone(old(cfg.value))
    ensures driver.dsns == old(driver.dsns) + [DSN(cfg.value)]
    ensures var r := Factory(cfg.value, driver.openError, old(driver.handleErrors), Intended);
      err == r.err && driver.pool == old(driver.pool) + r.pool && driver.handleErrors == r.script
    ensures driver.logger == MapperDefault
    ensures db == null <==> err.Some?
    ensures db != null ==> fresh(db) && db.gorm == driver && db.dbLogger == None
  {
    db, err := Create(cfg, driver, Intended);
  }

  // ---------------------------------------------------------------------
  // Properties of the factory
  // ---------------------------------------------------------------------

  /** A failed open reports the wrapped message and touches no pool limit. */
  lemma OpenFailureStops(cfg: Config, e: string, script: seq<Option<string>>, g: Guard)
    ensures Factory(cfg, Some(e), script, g) == Outcome(Some(ConnectPrefix + e), [], script)
  {
  }

  /** The pool calls are always a prefix of the plan, the whole plan exactly
      when the factory succeeds, and a strict prefix when it fails. */
  lemma FactoryFollowsPlan(cfg: Config, openError: Option<string>, script: seq<Option<string>>, g: Guard)
    ensures Factory(cfg, openError, script, g).pool <= Plan(cfg, g)
    ensures Factory(cfg, openError, script, g).err.None? <==> Factory(cfg, openError, script, g).pool == Plan(cfg, g)
    ensures Factory(cfg, openError, script, g).err.Some? ==> Factory(cfg, openError, script, g).pool < Plan(cfg, g)
  {
    var r := Factory(cfg, openError, script, g);
    var p := Plan(cfg, g);
    if openError.None? && Admits(g, cfg.maxConnectionPool) {
      var maxStep := Setter(script, MaxOpen(cfg.maxConnectionPool));
      if maxStep.err.None? {
        var minStep := Setter(maxStep.script, MaxIdle(cfg.minConnectionPool));
        assert r.pool == [MaxOpen(cfg.maxConnectionPool)] + minStep.pool;
        assert p == [MaxOpen(cfg.maxConnectionPool), MaxIdle(cfg.minConnectionPool)];
      }
    } else if openError.None? {
      var minStep := Setter(script, MaxIdle(cfg.minConnectionPool));
      assert r.pool == [] + minStep.pool;
    }
  }

  /** The factory succeeds exactly when the open succeeds and none of the
      handle requests it makes fails. */
  lemma FactorySucceedsIff(cfg: Config, openError: Option<string>, script: seq<Option<string>>, g: Guard)
    ensures Factory(cfg, openError, script, g).err.None?
        <==> openError.None? && HandlesSucceed(script, Requests(cfg, g))
  {
    if openError.None? {
      if Admits(g, cfg.maxConnectionPool) {
        var rest := AfterHandle(script);
        if |script| >= 2 {
          assert NextHandle(rest) == script[1];
        }
        if HandlesSucceed(script, 2) && script != [] {
          assert script[0].None?;
        }
      } else {
        if HandlesSucceed(script, 1) && script != [] {
          assert script[0].None?;
        }
      }
    }
  }

  /** A failed handle request in the maximum step returns at once: the
      wrapped message, no pool limit, and no attempt at the minimum step
      (only the one handle outcome is used). */
  lemma MaxStepFailureStops(cfg: Config, script: seq<Option<string>>, g: Guard)
    requires Admits(g, cfg.maxConnectionPool) && NextHandle(script).Some?
    ensures Factory(cfg, None, script, g)
         == Outcome(Some(SqlDbPrefix + NextHandle(script).value), [], AfterHandle(script))
  {
  }

  /** After a successful open, the minimum step is always attempted unless the
      maximum step ran and failed; its failure is what the factory reports. */
  lemma MinStepAlwaysTried(cfg: Config, script: seq<Option<string>>, g: Guard)
    requires !Admits(g, cfg.maxConnectionPool) || NextHandle(script).None?
    ensures var rest := if Admits(g, cfg.maxConnectionPool) then AfterHandle(script) else script;
      var r := Factory(cfg, None, script, g);
      && (r.err.None? <==> NextHandle(rest).None?)
      && (r.err.Some? ==> r.err.value == SqlDbPrefix + NextHandle(rest).value)
      && r.script == AfterHandle(rest)
  {
  }

  /** As written, a positive maximum is never applied: the only calls the
      factory can make are idle-connection limits. */
  lemma AsWrittenSkipsPositiveMax(cfg: Config, openError: Option<string>, script: seq<Option<string>>)
    requires cfg.maxConnectionPool > 0
    ensures forall c :: c in Factory(cfg, openError, script, AsWritten).pool ==> c.MaxIdle?
  {
    FactoryFollowsPlan(cfg, openError, script, AsWritten);
    var p := Factory(cfg, openError, script, AsWritten).pool;
    assert Plan(cfg, AsWritten) == [MaxIdle(cfg.minConnectionPool)];
    assert p == [] || p == Plan(cfg, AsWritten);
  }

  /** As written, a non-positive ("unlimited") maximum is what gets passed to
      the handle, so the only maximum ever applied is one of at most zero. */
  lemma AsWrittenAppliesOnlyNonPositiveMax(cfg: Config, openError: Option<string>, script: seq<Option<string>>)
    ensures forall c :: c in Factory(cfg, openError, script, AsWritten).pool && c.MaxOpen? ==> c.n <= 0
  {
    FactoryFollowsPlan(cfg, openError, script, AsWritten);
    var p := Factory(cfg, openError, script, AsWritten).pool;
    var plan := Plan(cfg, AsWritten);
    assert forall c :: c in p ==> c in plan;
  }

  /** The concrete case: the documented configuration (maximum 10, minimum 2)
      on a driver that never fails gets only the idle limit as written, and
      both limits, maximum first, with the intended guard. */
  lemma MaxPoolCounterexample()
    ensures Factory(WithDefaultTimezone(ExampleConfig), None, [], AsWritten)
         == Outcome(None, [MaxIdle(2)], [])
    ensures Factory(WithDefaultTimezone(ExampleConfig), None, [], Intended)
         == Outcome(None, [MaxOpen(10), MaxIdle(2)], [])
  {
  }

  /** With the intended guard, the maximum step runs exactly for a positive
      maximum, and on success it is the first limit applied. */
  lemma IntendedAppliesPositiveMax(cfg: Config, openError: Option<string>, script: seq<Option<string>>)
    requires Factory(cfg, openError, script, Intended).err.None?
    ensures var p := Factory(cfg, openError, script, Intended).pool;
      (cfg.maxConnectionPool > 0 <==> MaxOpen(cfg.maxConnectionPool) in p)
      && (cfg.maxConnectionPool > 0 ==> p == [MaxOpen(cfg.maxConnectionPool), MaxIdle(cfg.minConnectionPool)])
  {
    FactoryFollowsPlan(cfg, openError, script, Intended);
  }

  // ---------------------------------------------------------------------
  // Properties of the installed loggers
  // ---------------------------------------------------------------------

  /** The logger `SetLogger` builds is coloured, reports failures and
      statements slower than 200ms, prints nothing for other statements,
      and drops Info messages while keeping Warn and Error ones. */
  lemma StandardLoggerBehaviour(w: Writer, e: string, elapsed: int, sql: string, rows: int, msg: string, data: seq<string>)
    ensures NewLogger(w, DefaultLoggerConfig).formats == ColorFormats
    ensures TraceOutput(NewLogger(w, DefaultLoggerConfig), Some(e), elapsed, sql, rows) != []
    ensures TraceOutput(NewLogger(w, DefaultLoggerConfig), None, elapsed, sql, rows) != []
        <==> elapsed > 200 * Millisecond
    ensures InfoOutput(NewLogger(w, DefaultLoggerConfig), msg, data) == []
    ensures |WarnOutput(NewLogger(w, DefaultLoggerConfig), msg, data)| == 1
    ensures |ErrorOutput(NewLogger(w, DefaultLoggerConfig), msg, data)| == 1
  {
  }

  /** After `DebugMode`, the mapper's logger prints every statement, while the
      object's own logger, still at Warn, stays quiet for a fast successful one. */
  lemma DebugModeTracesEveryStatement(w: Writer, elapsed: int, sql: string, rows: int)
    ensures var l := NewLogger(w, DefaultLoggerConfig);
      TraceOutput(LogMode(l, LevelInfo), None, elapsed, sql, rows) != []
      && (elapsed <= 200 * Millisecond ==> TraceOutput(l, None, elapsed, sql, rows) == [])
  {
  }
}
