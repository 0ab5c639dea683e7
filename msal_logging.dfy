/** The MSAL logger wiring: `loggerCallback` sends each MSAL log line to at most one log sink of
    the runner, and `loggerOptions` switches MSAL's verbosity with the runner's debug flag. */
module MsalLogging {
  import opened ActionsCore

  /** MSAL's `LogLevel`. */
  datatype LogLevel = LevelError | LevelWarning | LevelInfo | LevelVerbose | LevelTrace

  /** MSAL's `LoggerOptions`, without the callback. */
  datatype LoggerOptions = LoggerOptions(logLevel: LogLevel, piiLoggingEnabled: bool)

  /** `loggerCallback(level, message)` of both `GhaMsalLogging` modules: errors, warnings and
      information go to their sinks; anything more verbose goes to the debug sink, and only in
      debug mode. */
  function LoggerCallback(level: LogLevel, message: string, debug: bool): (es: seq<Event>)
    ensures |es| <= 1
    ensures level == LevelError <==> es == [Log(Level.Error, message)]
    ensures level == LevelWarning <==> es == [Log(Level.Warning, message)]
    ensures level == LevelInfo <==> es == [Log(Level.Info, message)]
    ensures (level == LevelVerbose || level == LevelTrace) ==> es == (if debug then [Log(Debug, message)] else [])
  {
    match level
    case LevelError => [Log(Level.Error, message)]
    case LevelWarning => [Log(Level.Warning, message)]
    case LevelInfo => [Log(Level.Info, message)]
    case _ => if debug then [Log(Debug, message)] else []
  }

  /** The inline `loggerCallback` of the client-assertion action: the same dispatch, but the
      verbose levels always reach `core.debug` (which the runner shows only in debug mode). */
  function AssertionLoggerCallback(level: LogLevel, message: string): (e: Event)
    ensures e.Log? && e.message == message
    ensures e.level == Level.Error <==> level == LevelError
    ensures e.level == Level.Warning <==> level == LevelWarning
    ensures e.level == Level.Info <==> level == LevelInfo
    ensures e.level == Debug <==> level == LevelVerbose || level == LevelTrace
  {
    match level
    case LevelError => Log(Level.Error, message)
    case LevelWarning => Log(Level.Warning, message)
    case LevelInfo => Log(Level.Info, message)
    case _ => Log(Debug, message)
  }

  /** `loggerOptions`: verbose exactly in debug mode, informational otherwise, never PII. */
  function Options(debug: bool): (o: LoggerOptions)
    ensures o.logLevel == LevelVerbose <==> debug
    ensures !debug ==> o.logLevel == LevelInfo
    ensures !o.piiLoggingEnabled
  {
    LoggerOptions(if debug then LevelVerbose else LevelInfo, false)
  }

  /** With debug off, the callback drops exactly the levels more verbose than the options let
      MSAL emit; with debug on, every line reaches some sink. */
  lemma CallbackMatchesOptions(level: LogLevel, message: string, debug: bool)
    ensures LoggerCallback(level, message, debug) == [] <==> !debug && (level == LevelVerbose || level == LevelTrace)
    ensures Masked(LoggerCallback(level, message, debug)) == {}
  {
    var es := LoggerCallback(level, message, debug);
    if es != [] {
      MaskedOne(es[0]);
      assert es == [es[0]];
    }
  }
}
