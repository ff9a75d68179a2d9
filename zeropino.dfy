/**
 * Logger construction (main.go): option resolution, the package-level
 * formatting settings every construction rewrites, and the base fields
 * (timestamp, pid, hostname) of a root logger.
 */
module Zeropino {
  import opened Wrappers
  import opened Zerolog
  import PinoModel
  import GoStrings

  /**
   * What the process offers a constructor: standard output, the process id
   * and the answer of os.Hostname (a name, or an error).
   */
  datatype Process = Process(stdout: Sink, pid: int, hostLookup: Result<string, string>)

  /** InitOptions. A null writer stands for Go's nil io.Writer. */
  datatype InitOptions = InitOptions(level: string, useTimeMs: bool, writer: Sink?)

  /** What Init hands to createLogger once the options are resolved. */
  datatype Settings = Settings(writer: Sink, level: Level, useTimeMs: bool)

  /**
   * The decisions Init takes before building anything: the writer defaults
   * to standard output, and a level name that does not parse makes the
   * whole construction fail with the parser's error.
   */
  function ResolveOptions(options: InitOptions, stdout: Sink): (r: Result<Settings, string>)
    ensures r.Err? <==> options.level != "" && forall l :: IsNamedLevel(l) ==> LevelName(l) != GoStrings.ToLower(options.level)
    ensures r.Err? ==> r.error == "level " + options.level + " is not recognized"
    ensures r.Ok? && options.level == "" ==> r.value.level == InfoLevel
    ensures r.Ok? && options.level != "" ==> IsNamedLevel(r.value.level) && LevelName(r.value.level) == GoStrings.ToLower(options.level)
    ensures r.Ok? ==> r.value.writer == (if options.writer != null then options.writer else stdout)
    ensures r.Ok? ==> r.value.useTimeMs == options.useTimeMs
  {
    var writer := if options.writer != null then options.writer else stdout;
    var parsed := PinoModel.ParseLevel(options.level);
    if parsed.err.Some? then Err(parsed.err.value) else Ok(Settings(writer, parsed.level, options.useTimeMs))
  }

  /** The settings createLogger installs: "msg", pino codes, pkg/errors stacks, Unix seconds or ms. */
  function PinoFormat(useTimeMs: bool): Format {
    Format("msg", PinoCodes, PkgErrorsMarshalStack, if useTimeMs then UnixMilliseconds else UnixSeconds)
  }

  /** The context of a root logger: a timestamp, the pid and the hostname ("" when the lookup failed). */
  function BaseContext(p: Process): seq<Field> {
    [TimestampField, IntField("pid", p.pid), StrField("hostname", if p.hostLookup.Ok? then p.hostLookup.value else "")]
  }

  /**
   * createLogger: rewrites the four zerolog package variables, then builds a
   * logger at `level` on `writer`. A failed hostname lookup is ignored.
   */
  method CreateLogger(g: Globals, p: Process, writer: Sink, level: Level, useTimeMs: bool) returns (log: Logger)
    modifies g
    ensures fresh(log)
    ensures log.level == level && log.writer == writer && log.context == BaseContext(p)
    ensures g.Snapshot() == PinoFormat(useTimeMs)
  {
    g.messageFieldName := "msg";
    g.levelFieldMarshalFunc := PinoCodes;
    g.errorStackMarshaler := PkgErrorsMarshalStack;

    g.timeFieldFormat := UnixSeconds;
    if useTimeMs {
      g.timeFieldFormat := UnixMilliseconds;
    }

    var hostname := if p.hostLookup.Ok? then p.hostLookup.value else "";
    log := new Logger(level, [TimestampField, IntField("pid", p.pid), StrField("hostname", hostname)], writer);
  }

  /**
   * Init: on an unrecognised level returns (nil, err) and touches nothing;
   * otherwise builds the logger ResolveOptions describes.
   */
  method Init(g: Globals, p: Process, options: InitOptions) returns (log: Logger?, err: Option<string>)
    modifies g
    ensures ResolveOptions(options, p.stdout).Err? ==>
      log == null && err == Some(ResolveOptions(options, p.stdout).error) && unchanged(g)
    ensures ResolveOptions(options, p.stdout).Ok? ==>
      var s := ResolveOptions(options, p.stdout).value;
      && err == None && log != null && fresh(log)
      && log.level == s.level && log.writer == s.writer && log.context == BaseContext(p)
      && g.Snapshot() == PinoFormat(s.useTimeMs)
  {
    var logWriter := p.stdout;
    if options.writer != null {
      logWriter := options.writer;
    }

    var parsed := PinoModel.ParseLevel(options.level);
    if parsed.err.Some? {
      return null, parsed.err;
    }

    log := CreateLogger(g, p, logWriter, parsed.level, options.useTimeMs);
    err := None;
  }

  /** InitDefault: info level, Unix seconds, standard output; cannot fail. */
  method InitDefault(g: Globals, p: Process) returns (log: Logger)
    modifies g
    ensures fresh(log)
    ensures log.level == InfoLevel && log.writer == p.stdout && log.context == BaseContext(p)
    ensures g.Snapshot() == PinoFormat(false)
  {
    log := CreateLogger(g, p, p.stdout, InfoLevel, false);
  }

  /** Init with no options at all behaves as InitDefault. */
  lemma EmptyOptionsAreDefault(stdout: Sink)
    ensures ResolveOptions(InitOptions("", false, null), stdout) == Ok(Settings(stdout, InfoLevel, false))
  {
  }

  /** The unrecognised name of main_test.go fails with the quoted message. */
  lemma CustomLevelFails(stdout: Sink, writer: Sink)
    ensures ResolveOptions(InitOptions("custom", false, writer), stdout)
         == Err("level " + "custom" + " is not recognized")
  {
    assert forall i :: 0 <= i < |"custom"| ==> 'a' <= "custom"[i] <= 'z';
    assert GoStrings.ToLower("custom") == "custom";
  }

  /**
   * The settings are process-wide: a logger asked for milliseconds writes
   * records in seconds once another logger has been built after it.
   */
  method SettingsAreShared(g: Globals, p: Process, w: Sink) returns (first: Logger, second: Logger)
    modifies g, w
    ensures first.level == InfoLevel && first.writer == w
    ensures w.records == old(w.records) + [Record(InfoLevel, PinoFormat(false), first.context, NoFields, "m")]
    ensures w.records[|w.records| - 1].format.timeFieldFormat == UnixSeconds
  {
    first := CreateLogger(g, p, w, InfoLevel, true);
    second := CreateLogger(g, p, p.stdout, WarnLevel, false);
    Emit(g, first, InfoLevel, NoFields, "m");
  }
}
