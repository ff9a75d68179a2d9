/**
 * Translation between zerolog severities and the numeric-string level codes
 * of the pino convention ("10" trace ... "60" fatal, plus "70" for panic,
 * which has no pino counterpart), and the parser of level names
 * (internal/model/pino.go).
 */
module PinoModel {
  import opened Wrappers
  import opened Zerolog
  import opened GoStrings

  /** A pino level code. */
  type PinoLevel = string

  const Trace: PinoLevel := "10"
  const Debug: PinoLevel := "20"
  const Info: PinoLevel := "30"
  const Warn: PinoLevel := "40"
  const Error: PinoLevel := "50"
  const Fatal: PinoLevel := "60"
  const Panic: PinoLevel := "70"

  /**
   * ConvertLevel: the code of a named severity is ten times its rank
   * (trace is rank 1, panic rank 7); Disabled, NoLevel and every other
   * int8 value get "", which tells the encoder to omit the field.
   */
  function ConvertLevel(level: Level): (code: string)
    ensures code == "" <==> !IsNamedLevel(level)
    ensures code != "" ==> |code| == 2 && Atoi(code) == Some(10 * (level as int + 2))
  {
    var code :=
      if level == TraceLevel then Trace
      else if level == DebugLevel then Debug
      else if level == InfoLevel then Info
      else if level == WarnLevel then Warn
      else if level == ErrorLevel then Error
      else if level == FatalLevel then Fatal
      else if level == PanicLevel then Panic
      else "";
    if code == "" then code else AtoiTwoDigits(code); code
  }

  /**
   * ParseLevel: "" is info without error; a name equal, ignoring ASCII
   * case, to one of the seven level names gives that level; anything else
   * gives NoLevel and an error quoting the name as written.
   */
  function ParseLevel(level: string): (r: LevelResult)
    ensures level == "" ==> r == LevelResult(InfoLevel, None)
    ensures level != "" && r.err.None? ==> IsNamedLevel(r.level) && LevelName(r.level) == ToLower(level)
    ensures r.err.Some? <==> level != "" && forall l :: IsNamedLevel(l) ==> LevelName(l) != ToLower(level)
    ensures r.err.Some? ==> r.level == NoLevel && r.err.value == "level " + level + " is not recognized"
  {
    if |level| > 0 then
      var lower := ToLower(level);
      if lower == "trace" then LevelResult(TraceLevel, None)
      else if lower == "debug" then LevelResult(DebugLevel, None)
      else if lower == "info" then LevelResult(InfoLevel, None)
      else if lower == "warn" then LevelResult(WarnLevel, None)
      else if lower == "error" then LevelResult(ErrorLevel, None)
      else if lower == "fatal" then LevelResult(FatalLevel, None)
      else if lower == "panic" then LevelResult(PanicLevel, None)
      else LevelResult(NoLevel, Some("level " + level + " is not recognized"))
    else
      LevelResult(InfoLevel, None)
  }

  /** The table of the switch: each named severity and its code. */
  lemma ConvertLevelTable()
    ensures ConvertLevel(TraceLevel) == "10" && ConvertLevel(DebugLevel) == "20"
    ensures ConvertLevel(InfoLevel) == "30" && ConvertLevel(WarnLevel) == "40"
    ensures ConvertLevel(ErrorLevel) == "50" && ConvertLevel(FatalLevel) == "60"
    ensures ConvertLevel(PanicLevel) == "70"
    ensures ConvertLevel(NoLevel) == "" && ConvertLevel(Disabled) == ""
  {
  }

  /** The seven codes strictly increase with severity, so they are pairwise distinct. */
  lemma CodesIncreaseWithSeverity(a: Level, b: Level)
    requires IsNamedLevel(a) && IsNamedLevel(b) && a < b
    ensures ConvertLevel(a) != ConvertLevel(b)
    ensures Atoi(ConvertLevel(a)).value < Atoi(ConvertLevel(b)).value
  {
  }

  /** Parsing looks at the name only through its ASCII lower case. */
  lemma ParseLevelIgnoresCase(s: string, t: string)
    requires ToLower(s) == ToLower(t)
    ensures ParseLevel(s).level == ParseLevel(t).level
    ensures ParseLevel(s).err.None? <==> ParseLevel(t).err.None?
  {
  }

  /** Every level name, in any ASCII casing, parses to its level. */
  lemma ParseLevelName(l: Level, s: string)
    requires IsNamedLevel(l) && ToLower(s) == LevelName(l)
    ensures ParseLevel(s) == LevelResult(l, None)
  {
  }

  /** Every accepted name, "" included, converts to a non-empty code: the one of its level. */
  lemma ParseThenConvert(s: string)
    requires ParseLevel(s).err.None?
    ensures ConvertLevel(ParseLevel(s).level) != ""
    ensures s == "" ==> ConvertLevel(ParseLevel(s).level) == Info
  {
  }
}
