/** The query logger handed to the object-relational mapper: a writer, the
    mapper's logger configuration and six printf formats chosen once, at
    construction, by the `Colorful` flag. Info, Warn and Error are gated by the
    configured level; Trace picks one of three formats by a fixed priority. */
module Logging {
  import opened Wrappers

  // The mapper's log levels, in increasing verbosity.
  const LevelSilent: int := 1
  const LevelError: int := 2
  const LevelWarn: int := 3
  const LevelInfo: int := 4

  /** One millisecond, in the nanoseconds a `time.Duration` counts. */
  const Millisecond: int := 1_000_000

  /** The mapper's logger configuration; `slowThreshold` is in nanoseconds. */
  datatype LoggerConfig = LoggerConfig(
    slowThreshold: int,
    colorful: bool,
    ignoreRecordNotFoundError: bool,
    parameterizedQueries: bool,
    logLevel: int)

  /** The six printf formats a logger prints with. */
  datatype Formats = Formats(
    info: string,
    warn: string,
    err: string,
    trace: string,
    traceWarn: string,
    traceErr: string)

  const Esc: char := '\U{1B}'

  /** The ANSI select-graphic-rendition sequence `ESC [ code m`. */
  function Sgr(code: string): string {
    [Esc, '['] + code + "m"
  }

  /** The coloured formats, each escape sequence written as `Sgr` of its code. */
  const ColorFormats := Formats(
    Sgr("0") + Sgr("32") + "[info] %s" + Sgr("0"),
    Sgr("0") + Sgr("35") + "[warn] %s" + Sgr("0"),
    Sgr("0") + Sgr("31") + "[error] %s" + Sgr("0"),
    Sgr("33") + "[%.3fms] " + Sgr("34;1") + "[rows:%v]" + Sgr("0") + " %s",
    Sgr("33") + "%s " + Sgr("0") + Sgr("31;1") + "[%.3fms] " + Sgr("33") + "[rows:%v]" + Sgr("35") + " %s" + Sgr("0"),
    Sgr("35;1") + "%s " + Sgr("0") + Sgr("33") + "[%.3fms] " + Sgr("34;1") + "[rows:%v]" + Sgr("0") + " %s")

  const PlainFormats := Formats(
    "[info] %s",
    "[warn] %s",
    "[error] %s",
    "[%.3fms] [rows:%v] %s",
    "%s [%.3fms] [rows:%v] %s",
    "%s [%.3fms] [rows:%v] %s")

  /** An argument handed to the writer's Printf, kept abstract where Go's fmt
      would render it: a message formatted from `msg` and `data`, an error, the
      elapsed time (nanoseconds, printed as milliseconds), a row count, the
      "SLOW SQL >= threshold" notice, or the statement text. */
  datatype Arg =
    | Message(msg: string, data: seq<string>)
    | Failure(err: string)
    | Elapsed(nanoseconds: int)
    | Rows(count: int)
    | SlowNotice(threshold: int)
    | Text(s: string)

  /** One Printf call on the writer. */
  datatype Record = Record(format: string, args: seq<Arg>)

  /** The writer every logger prints to; it keeps what it was given, in order. */
  class Writer {
    var records: seq<Record>

    constructor ()
      ensures records == []
    {
      records := [];
    }

    method Printf(format: string, args: seq<Arg>)
      modifies this
      ensures records == old(records) + [Record(format, args)]
    {
      records := records + [Record(format, args)];
    }
  }

  /** The callback Trace receives: it yields the statement and its row count,
      and counts how often it was asked. */
  class Statement {
    const sql: string
    const rows: int
    var calls: nat

    constructor (sql: string, rows: int)
      ensures this.sql == sql && this.rows == rows && calls == 0
    {
      this.sql := sql;
      this.rows := rows;
      calls := 0;
    }

    method Run() returns (sql: string, rows: int)
      modifies this
      ensures sql == this.sql && rows == this.rows
      ensures calls == old(calls) + 1
    {
      calls := calls + 1;
      sql, rows := this.sql, this.rows;
    }
  }

  /** `dbLogger`: a writer, the configuration and the chosen formats. */
  datatype DbLogger = DbLogger(writer: Writer, config: LoggerConfig, formats: Formats)

  /** `NewLogger`: keeps the writer and configuration as given and picks the
      coloured formats exactly when the configuration asks for colour. */
  function NewLogger(writer: Writer, config: LoggerConfig): (l: DbLogger)
    ensures l.writer == writer && l.config == config
    ensures config.colorful ==> l.formats == ColorFormats
    ensures !config.colorful ==> l.formats == PlainFormats
  {
    if config.colorful then DbLogger(writer, config, ColorFormats)
    else DbLogger(writer, config, PlainFormats)
  }

  /** `LogMode`: a copy of the logger with only the level replaced. */
  function LogMode(l: DbLogger, level: int): (r: DbLogger)
    ensures r.config.logLevel == level
    ensures r.writer == l.writer && r.formats == l.formats
    ensures r.config.(logLevel := l.config.logLevel) == l.config
  {
    l.(config := l.config.(logLevel := level))
  }

  /** What one severity call prints: one record when the level admits it. */
  function Gated(admitted: bool, format: string, message: Arg): (out: seq<Record>)
    ensures |out| == (if admitted then 1 else 0)
    ensures admitted ==> out[0] == Record(format, [message])
  {
    if admitted then [Record(format, [message])] else []
  }

  function InfoOutput(l: DbLogger, msg: string, data: seq<string>): (out: seq<Record>)
    ensures |out| <= 1
    ensures |out| == 1 <==> l.config.logLevel >= LevelInfo
    ensures |out| == 1 ==> out[0] == Record(l.formats.info, [Message(msg, data)])
  {
    Gated(l.config.logLevel >= LevelInfo, l.formats.info, Message(msg, data))
  }

  function WarnOutput(l: DbLogger, msg: string, data: seq<string>): (out: seq<Record>)
    ensures |out| <= 1
    ensures |out| == 1 <==> l.config.logLevel >= LevelWarn
    ensures |out| == 1 ==> out[0] == Record(l.formats.warn, [Message(msg, data)])
  {
    Gated(l.config.logLevel >= LevelWarn, l.formats.warn, Message(msg, data))
  }

  function ErrorOutput(l: DbLogger, msg: string, data: seq<string>): (out: seq<Record>)
    ensures |out| <= 1
    ensures |out| == 1 <==> l.config.logLevel >= LevelError
    ensures |out| == 1 ==> out[0] == Record(l.formats.err, [Message(msg, data)])
  {
    Gated(l.config.logLevel >= LevelError, l.formats.err, Message(msg, data))
  }

  method Info(l: DbLogger, msg: string, data: seq<string>)
    modifies l.writer
    ensures l.writer.records == old(l.writer.records) + InfoOutput(l, msg, data)
  {
    if l.config.logLevel >= LevelInfo {
      l.writer.Printf(l.formats.info, [Message(msg, data)]);
    }
  }

  method Warn(l: DbLogger, msg: string, data: seq<string>)
    modifies l.writer
    ensures l.writer.records == old(l.writer.records) + WarnOutput(l, msg, data)
  {
    if l.config.logLevel >= LevelWarn {
      l.writer.Printf(l.formats.warn, [Message(msg, data)]);
    }
  }

  method Error(l: DbLogger, msg: string, data: seq<string>)
    modifies l.writer
    ensures l.writer.records == old(l.writer.records) + ErrorOutput(l, msg, data)
  {
    if l.config.logLevel >= LevelError {
      l.writer.Printf(l.formats.err, [Message(msg, data)]);
    }
  }

  /** Which format, if any, Trace prints with. */
  datatype TraceBranch = Quiet | ErrorTrace | SlowTrace | QueryTrace

  /** Trace's choice: nothing at or below Silent; otherwise a failed statement
      (level Error or more), then a slow one (non-zero threshold exceeded, level
      Warn or more), then any statement at level Info. */
  function TraceBranchOf(config: LoggerConfig, failed: bool, elapsed: int): (b: TraceBranch)
    ensures config.logLevel <= LevelSilent ==> b == Quiet
    ensures b == ErrorTrace <==> failed && config.logLevel >= LevelError
    ensures b == SlowTrace <==>
              !(failed && config.logLevel >= LevelError)
              && elapsed > config.slowThreshold && config.slowThreshold != 0
              && config.logLevel >= LevelWarn
    ensures b == QueryTrace <==>
              !(failed && config.logLevel >= LevelError)
              && !(elapsed > config.slowThreshold && config.slowThreshold != 0 && config.logLevel >= LevelWarn)
              && config.logLevel == LevelInfo
    ensures config.slowThreshold == 0 ==> b != SlowTrace
  {
    if config.logLevel <= LevelSilent then Quiet
    else if failed && config.logLevel >= LevelError then ErrorTrace
    else if elapsed > config.slowThreshold && config.slowThreshold != 0 && config.logLevel >= LevelWarn then SlowTrace
    else if config.logLevel == LevelInfo then QueryTrace
    else Quiet
  }

  /** What Trace prints for a statement `sql` with `rows` rows that took
      `elapsed` nanoseconds and ended with `err`. */
  function TraceOutput(l: DbLogger, err: Option<string>, elapsed: int, sql: string, rows: int): (out: seq<Record>)
    ensures |out| <= 1
    ensures out == [] <==> TraceBranchOf(l.config, err.Some?, elapsed) == Quiet
    ensures TraceBranchOf(l.config, err.Some?, elapsed) == ErrorTrace ==>
              out == [Record(l.formats.traceErr, [Failure(err.value), Elapsed(elapsed), Rows(rows), Text(sql)])]
    ensures TraceBranchOf(l.config, err.Some?, elapsed) == SlowTrace ==>
              out == [Record(l.formats.traceWarn, [SlowNotice(l.config.slowThreshold), Elapsed(elapsed), Rows(rows), Text(sql)])]
    ensures TraceBranchOf(l.config, err.Some?, elapsed) == QueryTrace ==>
              out == [Record(l.formats.trace, [Elapsed(elapsed), Rows(rows), Text(sql)])]
  {
    match TraceBranchOf(l.config, err.Some?, elapsed)
    case Quiet => []
    case ErrorTrace => [Record(l.formats.traceErr, [Failure(err.value), Elapsed(elapsed), Rows(rows), Text(sql)])]
    case SlowTrace => [Record(l.formats.traceWarn, [SlowNotice(l.config.slowThreshold), Elapsed(elapsed), Rows(rows), Text(sql)])]
    case QueryTrace => [Record(l.formats.trace, [Elapsed(elapsed), Rows(rows), Text(sql)])]
  }

  /** `Trace`: prints at most one record, and asks the callback for the
      statement exactly once when it prints and never otherwise. */
  method Trace(l: DbLogger, elapsed: int, fc: Statement, err: Option<string>)
    modifies l.writer, fc
    ensures l.writer.records == old(l.writer.records) + TraceOutput(l, err, elapsed, fc.sql, fc.rows)
    ensures fc.calls == old(fc.calls) + |TraceOutput(l, err, elapsed, fc.sql, fc.rows)|
  {
    if l.config.logLevel <= LevelSilent {
      return;
    }
    if err.Some? && l.config.logLevel >= LevelError {
      var sql, rows := fc.Run();
      l.writer.Printf(l.formats.traceErr, [Failure(err.value), Elapsed(elapsed), Rows(rows), Text(sql)]);
    } else if elapsed > l.config.slowThreshold && l.config.slowThreshold != 0 && l.config.logLevel >= LevelWarn {
      var sql, rows := fc.Run();
      l.writer.Printf(l.formats.traceWarn, [SlowNotice(l.config.slowThreshold), Elapsed(elapsed), Rows(rows), Text(sql)]);
    } else if l.config.logLevel == LevelInfo {
      var sql, rows := fc.Run();
      l.writer.Printf(l.formats.trace, [Elapsed(elapsed), Rows(rows), Text(sql)]);
    }
  }

  /** `ParamsFilter`: the statement unchanged; the parameters dropped (nil)
      exactly when parameterized queries are configured. `None` is a nil slice. */
  function ParamsFilter(l: DbLogger, sql: string, params: Option<seq<string>>): (r: (string, Option<seq<string>>))
    ensures r.0 == sql
    ensures l.config.parameterizedQueries ==> r.1 == None
    ensures !l.config.parameterizedQueries ==> r.1 == params
  {
    if l.config.parameterizedQueries then (sql, None) else (sql, params)
  }

  // ---------------------------------------------------------------------
  // The two format sets
  // ---------------------------------------------------------------------

  function AfterTerminator(s: string): (r: string)
    ensures |r| <= |s|
  {
    if s == [] then [] else if s[0] == 'm' then s[1..] else AfterTerminator(s[1..])
  }

  /** `s` with every `ESC ... m` sequence removed: the text a terminal shows. */
  function StripSgr(s: string): string
    decreases |s|
  {
    if s == [] then []
    else if s[0] == Esc then StripSgr(AfterTerminator(s[1..]))
    else [s[0]] + StripSgr(s[1..])
  }

  /** Every escape sequence in `s` is terminated. */
  predicate Complete(s: string)
    decreases |s|
  {
    if s == [] then true
    else if s[0] == Esc then 'm' in s[1..] && Complete(AfterTerminator(s[1..]))
    else Complete(s[1..])
  }

  lemma {:induction false} AfterTerminatorAppend(t: string, b: string)
    requires 'm' in t
    ensures AfterTerminator(t + b) == AfterTerminator(t) + b
  {
    assert (t + b)[0] == t[0] && (t + b)[1..] == t[1..] + b;
    if t[0] != 'm' {
      AfterTerminatorAppend(t[1..], b);
    }
  }

  lemma {:induction false} AfterTerminatorSkip(t: string, rest: string)
    requires 'm' !in t
    ensures AfterTerminator(t + "m" + rest) == rest
  {
    var x := t + "m" + rest;
    if |t| == 0 {
      assert x[0] == 'm' && x[1..] == rest;
    } else {
      assert x[0] == t[0] && x[1..] == t[1..] + "m" + rest;
      AfterTerminatorSkip(t[1..], rest);
    }
  }

  /** Stripping a complete string and then more is stripping each part. */
  lemma {:induction false} StripSgrAppend(a: string, b: string)
    requires Complete(a) && Complete(b)
    ensures Complete(a + b) && StripSgr(a + b) == StripSgr(a) + StripSgr(b)
    decreases |a|
  {
    if a == [] {
      assert a + b == b;
    } else {
      var x := a + b;
      assert x[0] == a[0] && x[1..] == a[1..] + b;
      if a[0] == Esc {
        AfterTerminatorAppend(a[1..], b);
        StripSgrAppend(AfterTerminator(a[1..]), b);
        assert 'm' in x[1..];
      } else {
        StripSgrAppend(a[1..], b);
      }
    }
  }

  lemma SgrStrips(code: string)
    requires 'm' !in code
    ensures Complete(Sgr(code)) && StripSgr(Sgr(code)) == ""
  {
    var x := Sgr(code);
    assert x[1..] == "[" + code + "m" + "";
    AfterTerminatorSkip("[" + code, "");
    assert 'm' in x[1..] by { assert x[1..][|x| - 2] == 'm'; }
  }

  lemma {:induction false} TextStrips(t: string)
    requires Esc !in t
    ensures Complete(t) && StripSgr(t) == t
  {
    if t != [] {
      TextStrips(t[1..]);
      assert [t[0]] + t[1..] == t;
    }
  }

  lemma AppendSgr(a: string, code: string)
    requires Complete(a) && 'm' !in code
    ensures Complete(a + Sgr(code)) && StripSgr(a + Sgr(code)) == StripSgr(a)
  {
    SgrStrips(code);
    StripSgrAppend(a, Sgr(code));
    assert StripSgr(a) + "" == StripSgr(a);
  }

  lemma AppendText(a: string, t: string)
    requires Complete(a) && Esc !in t
    ensures Complete(a + t) && StripSgr(a + t) == StripSgr(a) + t
  {
    TextStrips(t);
    StripSgrAppend(a, t);
  }

  /** The shape of the info, warn and error formats. */
  lemma SeverityShape(c0: string, c1: string, t0: string, c2: string)
    requires 'm' !in c0 && 'm' !in c1 && 'm' !in c2 && Esc !in t0
    ensures StripSgr(Sgr(c0) + Sgr(c1) + t0 + Sgr(c2)) == t0
  {
    SgrStrips(c0);
    var a1 := Sgr(c0) + Sgr(c1);
    AppendSgr(Sgr(c0), c1);
    var a2 := a1 + t0;
    AppendText(a1, t0);
    assert "" + t0 == t0;
    AppendSgr(a2, c2);
  }

  /** The shape of the trace format. */
  lemma TraceShape(c0: string, t0: string, c1: string, t1: string, c2: string, t2: string)
    requires 'm' !in c0 && 'm' !in c1 && 'm' !in c2
    requires Esc !in t0 && Esc !in t1 && Esc !in t2
    ensures StripSgr(Sgr(c0) + t0 + Sgr(c1) + t1 + Sgr(c2) + t2) == t0 + t1 + t2
  {
    SgrStrips(c0);
    var a1 := Sgr(c0) + t0;
    AppendText(Sgr(c0), t0);
    assert "" + t0 == t0;
    var a2 := a1 + Sgr(c1);
    AppendSgr(a1, c1);
    var a3 := a2 + t1;
    AppendText(a2, t1);
    var a4 := a3 + Sgr(c2);
    AppendSgr(a3, c2);
    AppendText(a4, t2);
  }

  /** The shape of the error-trace format. */
  lemma TraceErrShape(c0: string, t0: string, c1: string, c2: string, t1: string, c3: string, t2: string, c4: string, t3: string)
    requires 'm' !in c0 && 'm' !in c1 && 'm' !in c2 && 'm' !in c3 && 'm' !in c4
    requires Esc !in t0 && Esc !in t1 && Esc !in t2 && Esc !in t3
    ensures StripSgr(Sgr(c0) + t0 + Sgr(c1) + Sgr(c2) + t1 + Sgr(c3) + t2 + Sgr(c4) + t3) == t0 + t1 + t2 + t3
  {
    SgrStrips(c0);
    var a1 := Sgr(c0) + t0;
    AppendText(Sgr(c0), t0);
    assert "" + t0 == t0;
    var a2 := a1 + Sgr(c1);
    AppendSgr(a1, c1);
    var a3 := a2 + Sgr(c2);
    AppendSgr(a2, c2);
    var a4 := a3 + t1;
    AppendText(a3, t1);
    var a5 := a4 + Sgr(c3);
    AppendSgr(a4, c3);
    var a6 := a5 + t2;
    AppendText(a5, t2);
    var a7 := a6 + Sgr(c4);
    AppendSgr(a6, c4);
    AppendText(a7, t3);
  }

  /** The shape of the slow-trace format. */
  lemma TraceWarnShape(c0: string, t0: string, c1: string, c2: string, t1: string, c3: string, t2: string, c4: string, t3: string, c5: string)
    requires 'm' !in c0 && 'm' !in c1 && 'm' !in c2 && 'm' !in c3 && 'm' !in c4 && 'm' !in c5
    requires Esc !in t0 && Esc !in t1 && Esc !in t2 && Esc !in t3
    ensures StripSgr(Sgr(c0) + t0 + Sgr(c1) + Sgr(c2) + t1 + Sgr(c3) + t2 + Sgr(c4) + t3 + Sgr(c5)) == t0 + t1 + t2 + t3
  {
    var a8 := Sgr(c0) + t0 + Sgr(c1) + Sgr(c2) + t1 + Sgr(c3) + t2 + Sgr(c4) + t3;
    TraceErrShape(c0, t0, c1, c2, t1, c3, t2, c4, t3);
    assert Complete(a8) by {
      SgrStrips(c0);
      var a1 := Sgr(c0) + t0;
      AppendText(Sgr(c0), t0);
      var a2 := a1 + Sgr(c1);
      AppendSgr(a1, c1);
      var a3 := a2 + Sgr(c2);
      AppendSgr(a2, c2);
      var a4 := a3 + t1;
      AppendText(a3, t1);
      var a5 := a4 + Sgr(c3);
      AppendSgr(a4, c3);
      var a6 := a5 + t2;
      AppendText(a5, t2);
      var a7 := a6 + Sgr(c4);
      AppendSgr(a6, c4);
      AppendText(a7, t3);
    }
    AppendSgr(a8, c5);
  }

  lemma InfoStrips()
    ensures StripSgr(ColorFormats.info) == PlainFormats.info
  {
    SeverityShape("0", "32", "[info] %s", "0");
  }

  lemma WarnStrips()
    ensures StripSgr(ColorFormats.warn) == PlainFormats.warn
  {
    SeverityShape("0", "35", "[warn] %s", "0");
  }

  lemma ErrStrips()
    ensures StripSgr(ColorFormats.err) == PlainFormats.err
  {
    SeverityShape("0", "31", "[error] %s", "0");
  }

  lemma TraceStrips()
    ensures StripSgr(ColorFormats.trace) == PlainFormats.trace
  {
    TraceShape("33", "[%.3fms] ", "34;1", "[rows:%v]", "0", " %s");
    assert "[%.3fms] " + "[rows:%v]" == "[%.3fms] [rows:%v]";
    assert "[%.3fms] [rows:%v]" + " %s" == PlainFormats.trace;
  }

  lemma TraceWarnStrips()
    ensures StripSgr(ColorFormats.traceWarn) == PlainFormats.traceWarn
  {
    TraceWarnShape("33", "%s ", "0", "31;1", "[%.3fms] ", "33", "[rows:%v]", "35", " %s", "0");
    assert "%s " + "[%.3fms] " == "%s [%.3fms] ";
    assert "%s [%.3fms] " + "[rows:%v]" == "%s [%.3fms] [rows:%v]";
    assert "%s [%.3fms] [rows:%v]" + " %s" == PlainFormats.traceWarn;
  }

  lemma TraceErrStrips()
    ensures StripSgr(ColorFormats.traceErr) == PlainFormats.traceErr
  {
    TraceErrShape("35;1", "%s ", "0", "33", "[%.3fms] ", "34;1", "[rows:%v]", "0", " %s");
    assert "%s " + "[%.3fms] " == "%s [%.3fms] ";
    assert "%s [%.3fms] " + "[rows:%v]" == "%s [%.3fms] [rows:%v]";
    assert "%s [%.3fms] [rows:%v]" + " %s" == PlainFormats.traceErr;
  }

  /** The coloured formats are the plain ones with colour codes added: with
      the escape sequences removed, each reads as its plain counterpart. */
  lemma ColorFormatsArePlainInColour()
    ensures StripSgr(ColorFormats.info) == PlainFormats.info
    ensures StripSgr(ColorFormats.warn) == PlainFormats.warn
    ensures StripSgr(ColorFormats.err) == PlainFormats.err
    ensures StripSgr(ColorFormats.trace) == PlainFormats.trace
    ensures StripSgr(ColorFormats.traceWarn) == PlainFormats.traceWarn
    ensures StripSgr(ColorFormats.traceErr) == PlainFormats.traceErr
  {
    InfoStrips();
    WarnStrips();
    ErrStrips();
    TraceStrips();
    TraceWarnStrips();
    TraceErrStrips();
  }

  // ---------------------------------------------------------------------
  // Levels and the trace choice
  // ---------------------------------------------------------------------

  /** Setting a level twice keeps only the last; setting the current level
      gives back the same logger. */
  lemma LogModeLastWins(l: DbLogger, a: int, b: int)
    ensures LogMode(LogMode(l, a), b) == LogMode(l, b)
    ensures LogMode(l, l.config.logLevel) == l
  {
  }

  /** At or below Silent nothing is printed by any of the four calls. */
  lemma SilentPrintsNothing(l: DbLogger, msg: string, data: seq<string>, err: Option<string>, elapsed: int, sql: string, rows: int)
    requires l.config.logLevel <= LevelSilent
    ensures InfoOutput(l, msg, data) == [] && WarnOutput(l, msg, data) == [] && ErrorOutput(l, msg, data) == []
    ensures TraceOutput(l, err, elapsed, sql, rows) == []
  {
  }

  /** Raising the level never silences a call that printed before. */
  lemma MoreVerboseNeverLoses(l: DbLogger, level: int, msg: string, data: seq<string>, err: Option<string>, elapsed: int, sql: string, rows: int)
    requires level >= l.config.logLevel
    ensures |InfoOutput(l, msg, data)| <= |InfoOutput(LogMode(l, level), msg, data)|
    ensures |WarnOutput(l, msg, data)| <= |WarnOutput(LogMode(l, level), msg, data)|
    ensures |ErrorOutput(l, msg, data)| <= |ErrorOutput(LogMode(l, level), msg, data)|
    ensures level <= LevelInfo ==> |TraceOutput(l, err, elapsed, sql, rows)| <= |TraceOutput(LogMode(l, level), err, elapsed, sql, rows)|
  {
  }

  /** A failed statement is printed in the error format even when it was also
      slow: the error case comes first. */
  lemma ErrorBeforeSlow(l: DbLogger, e: string, elapsed: int, sql: string, rows: int)
    requires l.config.logLevel >= LevelError
    ensures TraceOutput(l, Some(e), elapsed, sql, rows)
         == [Record(l.formats.traceErr, [Failure(e), Elapsed(elapsed), Rows(rows), Text(sql)])]
  {
  }

  /** This logger does not consult IgnoreRecordNotFoundError: Trace prints the
      same whatever the flag says. */
  lemma TraceIgnoresRecordNotFoundFlag(l: DbLogger, flag: bool, err: Option<string>, elapsed: int, sql: string, rows: int)
    ensures TraceOutput(l.(config := l.config.(ignoreRecordNotFoundError := flag)), err, elapsed, sql, rows)
         == TraceOutput(l, err, elapsed, sql, rows)
  {
  }

  /** Filtering what was already filtered changes nothing. */
  lemma ParamsFilterIdempotent(l: DbLogger, sql: string, params: Option<seq<string>>)
    ensures ParamsFilter(l, ParamsFilter(l, sql, params).0, ParamsFilter(l, sql, params).1) == ParamsFilter(l, sql, params)
  {
  }
}
