# go-database in Dafny

A model of the `database` package of go-database. The package is a thin layer over the GORM object-relational mapper and its PostgreSQL driver. It has three parts:

- **Configuration** (`config.go`): a `Config` record and its two `fmt.Sprintf` renderings. `String()` is the display form, with pool sizes. `DSN()` is the keyword/value connection string handed to the driver: sslmode disabled, no quoting.
- **Query logger** (`logger.go`): `dbLogger`. Its six printf formats are chosen once by the `Colorful` flag. Info, Warn and Error are gated by the configured level. Trace reports a statement as failed, slow or plain, with a fixed priority and a silent cut-off. `LogMode` makes a copy with a new level. `ParamsFilter` drops parameters when parameterized queries are configured.
- **Connection factory** (`postgresql.go`): `CreatePostgreSQL` writes the default timezone back into the caller's configuration. It then opens the mapper on the DSN. It applies the maximum pool size only when it is zero or negative (see Findings), then always the minimum pool size, through the SQL handle. It returns early with a wrapped error at each failure. `SetLogger` installs the standard logger; `DebugMode` switches the mapper's copy of it to Info.

The Dafny files:

| file | module | contents |
|---|---|---|
| `wrappers.dfy` | `Wrappers` | `Option`, standing for Go's nil pointer, nil error and nil slice |
| `decimal.dfy` | `Decimal` | `%d` rendering of integers, and its inverse |
| `config.dfy` | `Configuration` | `Config`, `String`, `DSN`, and an independent keyword/value reader |
| `logging.dfy` | `Logging` | the formats, `NewLogger`, `LogMode`, the gated calls, `Trace`, `ParamsFilter`, and the `Writer` and `Statement` classes |
| `postgres.dfy` | `Postgres` | the abstract `Driver`, the `PostgreSQL` class, and the factory |

How the model is built:

- The Writer is a class that keeps every `Printf` call as a `Record`: the format string plus abstract arguments. Info, Warn, Error and Trace are methods that append to it. Each method is proved equal to a pure function (`InfoOutput`, `TraceOutput`, …), and the lemmas are stated about those functions.
- The `fc` callback of Trace is a `Statement` object that counts how often it is asked.
- Durations are integer nanoseconds. The levels are GORM's: Silent=1, Error=2, Warn=3, Info=4.
- The mapper and its SQL handle are one `Driver` object:
  - `openError` is what opening reports.
  - `handleErrors` is a script of outcomes for successive requests for the SQL handle. Requests beyond the script succeed.
  - It records the DSNs it was opened with, the pool limits it was given, and the logger it reports to.

The field comment on `MaxConnectionPool` (config.go:43) says that zero or a negative value means unlimited. The documented example (config.go:21, shown as `max-pool=10` at config.go:28) sets a maximum of 10. Yet the factory passes the maximum on only when it is zero or negative (postgresql.go:44). The model follows the code (`CreatePostgreSQL`) and also gives the evidently intended version (`CreatePostgreSQLCorrected`); see Findings.

## Model

| member | source | states |
|---|---|---|
| Decimal.NatToDecimal | config.go:51-52 | the `%d` digits of a natural number are non-empty digits with no leading zero except for 0 itself |
| Decimal.IntToDecimal | config.go:59-60 | the `%d` text of an integer is non-empty, has no space or '=', and starts with '-' exactly for negative numbers |
| Decimal.DecimalRoundTrip | config.go:51-52 | reading back the `%d` text of any integer gives that integer |
| Decimal.DecimalInjective | config.go:59-60 | distinct integers print differently |
| Configuration.String | config.go:49-54 | no contract of its own: the single `Sprintf` layout, proved equal to `Render(StringPairs(cfg))` by `StringLayout` and read back by `StringReadsBackIff` |
| Configuration.DSN | config.go:57-62 | no contract of its own: the single `Sprintf` layout, proved equal to `Render(DSNPairs(cfg))` by `DSNLayout` and read back by `DSNReadsBackIff` |
| Configuration.DSNLayout | config.go:57-62 | `DSN()` is exactly the seven pairs user, password, dbname, port, host, sslmode=disable, TimeZone, in that order, joined by single spaces |
| Configuration.StringLayout | config.go:49-54 | `String()` is exactly the seven pairs user, password, dbname, port, host, min-pool, max-pool, minimum before maximum |
| Configuration.ParseRenderIff | config.go:50-53 | a keyword/value rendering reads back as its pairs exactly when no value holds a space, since nothing is quoted or escaped |
| Configuration.DSNReadsBackIff | config.go:58-61 | the DSN reads back as the configured values if and only if no string field holds a space |
| Configuration.StringReadsBackIff | config.go:50-53 | the display string reads back as the configured values if and only if no field it shows holds a space |
| Configuration.DSNReadsBack | config.go:57-62 | for space-free fields the DSN's keys are the seven in order, it has no pool size, and the port reads back as the number configured |
| Configuration.StringReadsBack | config.go:49-54 | when the fields it shows are space-free, the display string's keys are the seven in order, it has no timezone or sslmode, and both pool sizes read back |
| Configuration.DSNShowsPassword | config.go:59-60 | the password appears verbatim in the DSN, with no redaction |
| Configuration.StringShowsPassword | config.go:51-52 | the password appears verbatim in the display string |
| Configuration.DSNDisablesSsl | config.go:59 | every DSN contains `sslmode=disable` followed by the timezone |
| Configuration.ExampleDSN | config.go:15-26 | the documented example configuration gives the documented DSN |
| Configuration.ExampleString | config.go:15-28 | the documented example configuration gives the documented display string |
| Configuration.ParseRender | config.go:58-61 | pairs with readable keys and space-free values read back from their rendering |
| Logging.NewLogger | logger.go:53-75 | keeps the writer and the configuration, and picks the coloured formats exactly when `Colorful` is set, the plain ones otherwise |
| Logging.ColorFormatsArePlainInColour | logger.go:57-73 | with the escape sequences removed, each coloured format is its plain counterpart |
| Logging.LogMode | logger.go:79-83 | the copy has the new level and every other field of the original |
| Logging.LogModeLastWins | logger.go:79-83 | setting the level twice keeps the last, and setting the current level changes nothing |
| Logging.InfoOutput | logger.go:86-90 | Info prints one record, in the info format with the message, exactly when the level is at least Info |
| Logging.WarnOutput | logger.go:93-97 | Warn prints one record exactly when the level is at least Warn |
| Logging.ErrorOutput | logger.go:100-104 | Error prints one record exactly when the level is at least Error |
| Logging.Info | logger.go:86-90 | the writer gains exactly what `InfoOutput` prescribes |
| Logging.Warn | logger.go:93-97 | the writer gains exactly what `WarnOutput` prescribes |
| Logging.Error | logger.go:100-104 | the writer gains exactly what `ErrorOutput` prescribes |
| Logging.TraceBranchOf | logger.go:107-124 | quiet at or below Silent; otherwise the error, slow and plain cases hold exactly under their conditions, in that priority; a zero threshold never yields the slow case |
| Logging.TraceOutput | logger.go:113-124 | at most one record; none exactly in the quiet case; otherwise the branch's format with its arguments |
| Logging.Trace | logger.go:107-125 | the writer gains exactly `TraceOutput`, and the callback is asked once when a record is printed and never otherwise |
| Logging.SilentPrintsNothing | logger.go:86-110 | at or below Silent none of the four calls prints |
| Logging.MoreVerboseNeverLoses | logger.go:86-124 | raising the level never silences an Info, Warn or Error call that printed before, nor a Trace call as long as the new level is at most Info (Trace's plain case tests for Info exactly) |
| Logging.ErrorBeforeSlow | logger.go:114-117 | a failed statement is reported in the error format even when it was also slow |
| Logging.TraceIgnoresRecordNotFoundFlag | logger.go:107-124 | Trace prints the same whatever `IgnoreRecordNotFoundError` says |
| Logging.ParamsFilter | logger.go:128-133 | the statement is returned unchanged; the parameters become nil exactly when parameterized queries are set, otherwise they are returned as given |
| Logging.ParamsFilterIdempotent | logger.go:128-133 | filtering twice is filtering once |
| Postgres.WithDefaultTimezone | postgresql.go:29-31 | the timezone is non-empty afterwards, an empty one becomes Asia/Jakarta, a set one is kept, and no other field changes |
| Postgres.Setter | postgresql.go:75-83 | a pool setter either fails with "failed to get sql db; " and the handle's message and applies nothing, or applies exactly its limit |
| Postgres.PostgreSQL.SetMaxConnectionPool | postgresql.go:75-83 | the driver gains exactly what `Setter` prescribes for `SetMaxOpenConns(n)`, and nothing else changes |
| Postgres.PostgreSQL.SetMinConnectionPool | postgresql.go:103-111 | the driver gains exactly what `Setter` prescribes for `SetMaxIdleConns(n)`, and nothing else changes |
| Postgres.PostgreSQL.SetLogger | postgresql.go:114-124 | the object's logger is the standard logger on the writer (200ms, colour, Warn), and the mapper reports to the same logger |
| Postgres.PostgreSQL.DebugMode | postgresql.go:138-140 | the mapper reports to an Info-level copy of the object's logger; the object's logger is unchanged; it needs a prior `SetLogger` |
| Postgres.Factory | postgresql.go:33-54 | no contract of its own: the factory's control flow after the timezone default (open, guarded maximum step, minimum step, early returns), described by `OpenFailureStops`, `FactoryFollowsPlan`, `FactorySucceedsIff`, `MaxStepFailureStops` and `MinStepAlwaysTried` |
| Postgres.Create | postgresql.go:28-55 | the factory body under either guard: timezone written back, the completed DSN opened, the mapper reset to its default logger, error, pool calls and handle use as `Factory` prescribes, and a fresh object exactly when there is no error |
| Postgres.CreatePostgreSQL | postgresql.go:28-55 | timezone written back first; the DSN of the completed configuration opened; the mapper then reports to its default logger; error, pool calls and handle use as `Factory` prescribes; a result object exactly when there is no error |
| Postgres.CreatePostgreSQLCorrected | postgresql.go:28-55 | the same with the maximum step guarded by `> 0` |
| Postgres.OpenFailureStops | postgresql.go:38-40 | a failed open reports "failed to connect database; " and the driver's message, and sets no pool limit |
| Postgres.FactoryFollowsPlan | postgresql.go:44-54 | the pool calls are a prefix of the plan (guarded maximum, then minimum); the whole plan exactly on success, a strict prefix on failure |
| Postgres.FactorySucceedsIff | postgresql.go:38-54 | the factory succeeds exactly when the open and every handle request it makes succeed |
| Postgres.MaxStepFailureStops | postgresql.go:44-48 | when the maximum step runs and its handle request fails, the factory reports "failed to get sql db; " and the handle's message, sets no pool limit and never attempts the minimum step |
| Postgres.MinStepAlwaysTried | postgresql.go:50-54 | after a successful open, and a successful maximum step if one ran, the minimum step is attempted and its failure is what is reported |
| Postgres.AsWrittenSkipsPositiveMax | postgresql.go:44-48 | as written, a positive maximum is never applied |
| Postgres.AsWrittenAppliesOnlyNonPositiveMax | postgresql.go:44-48 | as written, the only maximum ever passed to the handle is zero or negative |
| Postgres.MaxPoolCounterexample | postgresql.go:44-48 | the documented configuration (maximum 10, minimum 2) gets only the idle limit as written, and both limits with the intended guard |
| Postgres.IntendedAppliesPositiveMax | postgresql.go:44-48 | with the intended guard, a successful run applies the maximum exactly when it is positive, and before the minimum |
| Postgres.StandardLoggerBehaviour | postgresql.go:115-122 | the installed logger is coloured; it reports every failure and exactly the successful statements slower than 200ms; it drops Info messages and keeps Warn and Error |
| Postgres.DebugModeTracesEveryStatement | postgresql.go:138-140 | after DebugMode the mapper's logger prints every statement, while the object's Warn-level logger stays quiet for fast successful ones |

## Left out

- GORM, the PostgreSQL driver and `database/sql` are foreign code. `gorm.Open`, `postgres.New`, `db.DB.DB()`, `SetMaxOpenConns` and `SetMaxIdleConns` are the abstract `Driver`: a fixed open outcome, a script of handle outcomes and a call log. `PreferSimpleProtocol` and the empty `gorm.Config` are not modelled. Neither is what the pool limits mean to `database/sql`.
- Postgres.PostgreSQL.DebugMode: the source panics on a nil `dbLogger` (logger.go:80 dereferences it), for example right after `CreatePostgreSQL` without `SetLogger`; the model replaces that panic with the precondition `dbLogger.Some?`, so it says nothing about the panicking call.
- The mapper's default logger, installed by `gorm.Open`, is the opaque `MapperDefault`.
- Go strings are byte strings; the model uses Dafny strings, sequences of characters. Nothing in the core looks inside a string at the byte level: it only concatenates strings and compares them with "".
- `time.Since` is replaced by an elapsed time in integer nanoseconds, passed in. The conversion to float milliseconds and its `%.3f` rendering are floating point and stay abstract (`Elapsed`).
- `fmt.Sprintf(msg, data...)` is not modelled. Neither is the `%v` rendering of the error, the row count and the threshold in "SLOW SQL >= %v". They stay abstract arguments (`Message`, `Failure`, `Rows`, `SlowNotice`). The Writer's own formatting of a record is not modelled either.
- `context.Context` parameters are unused by the code and are dropped.
- Concurrency and thread safety of the pool belong to `database/sql` and are not modelled.
- Go's 64-bit `int` and `int64` are unbounded integers. They are only printed or compared, never computed with.
- Go pointers to loggers are values:
  - "`db.Logger` and `db.dbLogger` refer to the same instance" is stated as equality of the `DbLogger` values.
  - LogMode's fresh copy is a new value.
- The `*gorm.DB` embedded in `PostgreSQL` is the `gorm` field. The object is allocated after the open succeeds and is returned only on success, the same observable outcome as the source.
- The keyword/value reader (`ParsePairs`) splits on single spaces and on the first '='. It is an independent description of the layout used to state the read-back properties. It is not libpq's parser: libpq's quoting, backslash escapes and whitespace rules are not modelled.
- The ANSI escape sequences are written as `Sgr` applications of their codes. They are checked by literal equality of the format set and by stripping them back to the plain formats. Their display effect is not modelled.

## Findings

| source | as written | input that shows it | evidently intended | confidence | as-written member | corrected member |
|---|---|---|---|---|---|---|
| postgresql.go:44 | the maximum pool size is applied only when `cfg.MaxConnectionPool <= 0` | MaxConnectionPool=10, MinConnectionPool=2, driver never failing: only `SetMaxIdleConns(2)` is called | apply the maximum when it is set, `cfg.MaxConnectionPool > 0` (zero or negative meaning unlimited, per `Config`'s field comment at config.go:43) | not executed | Postgres.AsWrittenSkipsPositiveMax | Postgres.IntendedAppliesPositiveMax |
