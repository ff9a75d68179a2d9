/**
 * The structured-logging engine the repository wraps (github.com/rs/zerolog),
 * reduced to what the wrappers and middlewares rely on:
 *  - severities with zerolog's numeric values,
 *  - the package-level formatting settings that zeropino overwrites,
 *  - a logger as an immutable value behind a pointer {threshold, context fields, sink},
 *  - emission, which appends one record to the shared sink exactly when the
 *    severity is at or above the logger's threshold.
 * JSON encoding, field ordering and timestamp rendering are not modelled: a
 * record keeps its fields as data and remembers the formatting settings that
 * were in force when it was written.
 */
module Zerolog {
  import opened Wrappers

  /** zerolog.Level is an int8. */
  newtype Level = x: int | -128 <= x < 128

  const TraceLevel: Level := -1
  const DebugLevel: Level := 0
  const InfoLevel: Level := 1
  const WarnLevel: Level := 2
  const ErrorLevel: Level := 3
  const FatalLevel: Level := 4
  const PanicLevel: Level := 5
  const NoLevel: Level := 6
  const Disabled: Level := 7

  /** Go's `(zerolog.Level, error)` pair. */
  datatype LevelResult = LevelResult(level: Level, err: Option<string>)

  /** The seven severities that carry a name, from trace to panic. */
  predicate IsNamedLevel(l: Level) {
    TraceLevel <= l <= PanicLevel
  }

  /** zerolog's names of the seven named severities (LevelTraceValue ... LevelPanicValue). */
  function LevelName(l: Level): string
    requires IsNamedLevel(l)
  {
    if l == TraceLevel then "trace"
    else if l == DebugLevel then "debug"
    else if l == InfoLevel then "info"
    else if l == WarnLevel then "warn"
    else if l == ErrorLevel then "error"
    else if l == FatalLevel then "fatal"
    else "panic"
  }

  /** What zerolog.LevelFieldMarshalFunc is set to. */
  datatype LevelMarshaller =
    | EngineLevelNames   // zerolog's own default: the level's name
    | PinoCodes          // the repository's ConvertLevel

  /** What zerolog.ErrorStackMarshaler is set to. */
  datatype StackMarshaller = NoStackMarshaller | PkgErrorsMarshalStack

  /** What zerolog.TimeFieldFormat is set to. */
  datatype TimeFormat = Rfc3339 | UnixSeconds | UnixMilliseconds

  /** A snapshot of the package-level formatting settings. */
  datatype Format = Format(
    messageFieldName: string,
    levelMarshaller: LevelMarshaller,
    stackMarshaller: StackMarshaller,
    timeFieldFormat: TimeFormat)

  /** zerolog's own defaults, before any logger of this repository is built. */
  const EngineDefaults := Format("message", EngineLevelNames, NoStackMarshaller, Rfc3339)

  /** A field fixed in a logger's context by `With()`. */
  datatype Field =
    | TimestampField                 // With().Timestamp()
    | IntField(key: string, n: int)
    | StrField(key: string, s: string)

  /** The request/url/host part shared by both access-log records. */
  datatype RequestFields = RequestFields(
    httpMethod: string,
    userAgent: string,
    path: string,
    hostname: string,
    forwardedHost: string,
    ip: string)

  /**
   * The `responseTime` field: nanoseconds over one million as a float
   * (kept as the nanosecond count), whole milliseconds, or the literal 0
   * written when no start time is known.
   */
  datatype ResponseTime = NanosOverMillion(nanos: int) | WholeMillis(ms: int) | ZeroResponseTime

  /** The event-specific fields of a record. */
  datatype Payload =
    | NoFields
    | GeneratedRequestId(reqId: string)
    | ErrorWithStack(err: string)
    | IncomingRequest(request: RequestFields)
    | RequestCompleted(request: RequestFields, statusCode: int, bodyBytes: int, responseTime: ResponseTime)

  /** One emitted record. Once in a sink it is never changed. */
  datatype Record = Record(level: Level, format: Format, context: seq<Field>, payload: Payload, msg: string)

  /** The request id a decoder reads from a record's context: the last `reqId` field. */
  function ReqIdOf(context: seq<Field>): (r: string)
  {
    if context == [] then ""
    else
      var last := context[|context| - 1];
      if last.StrField? && last.key == "reqId" then last.s else ReqIdOf(context[..|context| - 1])
  }

  /** An output stream (an io.Writer): the records written to it, in order. */
  class Sink {
    var records: seq<Record>

    constructor ()
      ensures records == []
    {
      records := [];
    }
  }

  /** A *zerolog.Logger. Loggers are never changed after they are built. */
  class Logger {
    const level: Level
    const context: seq<Field>
    const writer: Sink

    constructor (level: Level, context: seq<Field>, writer: Sink)
      ensures this.level == level && this.context == context && this.writer == writer
    {
      this.level := level;
      this.context := context;
      this.writer := writer;
    }
  }

  /** The package-level variables of zerolog that the repository assigns. */
  class Globals {
    var messageFieldName: string
    var levelFieldMarshalFunc: LevelMarshaller
    var errorStackMarshaler: StackMarshaller
    var timeFieldFormat: TimeFormat

    constructor ()
      ensures Snapshot() == EngineDefaults
    {
      messageFieldName := "message";
      levelFieldMarshalFunc := EngineLevelNames;
      errorStackMarshaler := NoStackMarshaller;
      timeFieldFormat := Rfc3339;
    }

    function Snapshot(): Format
      reads this
    {
      Format(messageFieldName, levelFieldMarshalFunc, errorStackMarshaler, timeFieldFormat)
    }
  }

  /** Whether a logger at `threshold` writes an event at `lvl`. */
  predicate Enabled(threshold: Level, lvl: Level) {
    lvl >= threshold
  }

  /** What one emission adds to the sink: the record, or nothing when filtered. */
  function Emission(threshold: Level, r: Record): (out: seq<Record>)
    ensures |out| <= 1
    ensures out != [] <==> r.level >= threshold
    ensures out != [] ==> out[0] == r
  {
    if Enabled(threshold, r.level) then [r] else []
  }

  /** `l.<Level>().<fields>.Msg(msg)`: formats with the settings in force now. */
  method Emit(g: Globals, l: Logger, lvl: Level, payload: Payload, msg: string)
    modifies l.writer
    ensures l.writer.records
      == old(l.writer.records) + Emission(l.level, Record(lvl, g.Snapshot(), l.context, payload, msg))
  {
    if Enabled(l.level, lvl) {
      l.writer.records := l.writer.records + [Record(lvl, g.Snapshot(), l.context, payload, msg)];
    }
  }

  /** `l.With().Str(key, value).Logger()`: a child sharing level and sink. */
  method WithStr(l: Logger, key: string, value: string) returns (child: Logger)
    ensures fresh(child)
    ensures child.level == l.level && child.writer == l.writer
    ensures child.context == l.context + [StrField(key, value)]
  {
    child := new Logger(l.level, l.context + [StrField(key, value)], l.writer);
  }
}
