/**
 * The older copy of the level mapping (internal/pinoModel.go): the same two
 * switches over constants named PinoTrace ... PinoPanic.
 */
module PinoInternal {
  import opened Wrappers
  import opened Zerolog
  import opened GoStrings
  import PinoModel

  type PinoLevel = string

  const PinoTrace: PinoLevel := "10"
  const PinoDebug: PinoLevel := "20"
  const PinoInfo: PinoLevel := "30"
  const PinoWarn: PinoLevel := "40"
  const PinoError: PinoLevel := "50"
  const PinoFatal: PinoLevel := "60"
  const PinoPanic: PinoLevel := "70"

  /** Agrees with internal/model/pino.go on every int8 level. */
  function ConvertLevel(level: Level): (code: string)
    ensures code == PinoModel.ConvertLevel(level)
    ensures code == "" <==> !IsNamedLevel(level)
  {
    if level == TraceLevel then PinoTrace
    else if level == DebugLevel then PinoDebug
    else if level == InfoLevel then PinoInfo
    else if level == WarnLevel then PinoWarn
    else if level == ErrorLevel then PinoError
    else if level == FatalLevel then PinoFatal
    else if level == PanicLevel then PinoPanic
    else ""
  }

  /** Agrees with internal/model/pino.go on every name, error text included. */
  function ParseLevel(level: string): (r: LevelResult)
    ensures r == PinoModel.ParseLevel(level)
    ensures level == "" ==> r == LevelResult(InfoLevel, None)
    ensures r.err.Some? ==> r.level == NoLevel && r.err.value == "level " + level + " is not recognized"
  {
    if |level| > 0 then
      var lower := ToLower(level);
      if lower == "trace" then LevelResult(TraceLevel, None)
      else if lower == "debug" then LevelResult(DebugLevel, None)
      else if lower == "info" then LevelResult(InfoLevel, None)
      else if lower == "warn" then LevelResult(WarnLevel, None)
      else if lower == "error" then LevelResult(ErrorLevel, None)
      else if lower == "fatal" then LevelResult(FatalLevel, None)
      else if lower == "panic" then LevelResult(PanicLevel, None)
      else LevelResult(NoLevel, Some("level " + level + " is not recognized"))
    else
      LevelResult(InfoLevel, None)
  }
}
