/** The gating of the log4net sink: each logging member checks its own flag
    and the matching `IsXEnabled` answer of the underlying log4net logger,
    formats the text and emits one event at the level the member maps to.
    The `IsXEnabled` answers are inputs (`Levels`), and the emit is an event
    appended to the sink's record trace; `writable` says whether log4net
    accepts it. */
module Log4NetLogger {
  import opened Definitions
  import opened Formatters

  /** The formatter installed when a null one is assigned. */
  const DefaultFormatter := Log4NetFormat

  /** The answers of log4net's `IsDebugEnabled`, `IsInfoEnabled`,
      `IsWarnEnabled` and `IsErrorEnabled`. */
  datatype Levels = Levels(isDebugEnabled: bool, isInfoEnabled: bool, isWarnEnabled: bool, isErrorEnabled: bool)

  /** The log4net check a member makes; errors of every severity, including
      the fatal ones, ask only `IsErrorEnabled`. */
  predicate LevelEnabled(levels: Levels, c: Call)
    requires c.IsSpecialised()
  {
    match c
    case LogInfo(_) => levels.isInfoEnabled
    case LogDebug(_) => levels.isDebugEnabled
    case LogWarning(_) => levels.isWarnEnabled
    case LogError(_, _, _) => levels.isErrorEnabled
    case LogMethodStart(_, _, _) => levels.isInfoEnabled
    case LogMethodEnd(_, _) => levels.isInfoEnabled
  }

  /** The level an emitted event has: low and medium errors are log4net
      errors, high and extreme ones are fatal. */
  function LevelOf(c: Call): Log4NetLevel
    requires c.IsSpecialised()
  {
    match c
    case LogInfo(_) => InfoLevel
    case LogDebug(_) => DebugLevel
    case LogWarning(_) => WarnLevel
    case LogError(s, _, _) => if s == High || s == Extreme then FatalLevel else ErrorLevel
    case LogMethodStart(_, _, _) => InfoLevel
    case LogMethodEnd(_, _) => InfoLevel
  }

  /** The text the member asks the formatter for: errors use the plain message
      overload, never the exception overloads. */
  function RecordText(fmt: FormatterKind, c: Call): string
    requires c.IsSpecialised()
  {
    match c
    case LogInfo(m) => FormatMessage(fmt, m)
    case LogDebug(m) => FormatMessage(fmt, m)
    case LogWarning(m) => FormatMessage(fmt, m)
    case LogError(_, m, _) => FormatMessage(fmt, m)
    case LogMethodStart(h, n, v) => FormatMethodStart(fmt, h, n, v)
    case LogMethodEnd(h, s) => FormatMethodEnd(fmt, h, s)
  }

  /** The exception attached to an event: an error's exception, when it has one. */
  function AttachedException(c: Call): Nullable<Exc>
    requires c.IsSpecialised()
  {
    if c.LogError? then c.ex else Null
  }

  function Write(level: Log4NetLevel, text: string, ex: Nullable<Exc>, writable: bool, failText: string)
    : Result<seq<Entry>, LoggerError>
  {
    if writable then Success([Log4NetEvent(level, text, ex)]) else Failure(ExensibleLoggerException(failText))
  }

  /** `logger.Error(message, ex)` or `logger.Error(message)`, and the same for
      `Fatal`, according to whether there is an exception. */
  function WriteError(level: Log4NetLevel, message: string, e: Nullable<Exc>, writable: bool)
    : Result<seq<Entry>, LoggerError>
  {
    if e.Some? then Write(level, message, e, writable, FailedToLogText)
    else Write(level, message, Null, writable, FailedToLogText)
  }

  /** `LogInfo`, `LogDebug`, `LogWarning`, `LogError`, `LogMethodStart` and
      `LogMethodEnd`: what one call emits. A call that both the flags and
      log4net admit emits exactly one event, at its level, of the formatted
      text, with the error's exception attached, or fails with its fixed text
      when log4net rejects the write; any other call emits nothing. */
  function Emit(levels: Levels, writable: bool, flags: Flags, fmt: FormatterKind, c: Call)
    : (r: Result<seq<Entry>, LoggerError>)
    requires c.IsSpecialised()
    ensures !(Admits(flags, c) && LevelEnabled(levels, c)) ==> r == Success([])
    ensures Admits(flags, c) && LevelEnabled(levels, c) && writable ==>
      r == Success([Log4NetEvent(LevelOf(c), RecordText(fmt, c), AttachedException(c))])
    ensures Admits(flags, c) && LevelEnabled(levels, c) && !writable ==>
      r == Failure(ExensibleLoggerException(FailureText(c)))
  {
    match c
    case LogInfo(m) =>
      if flags.info && levels.isInfoEnabled then Write(InfoLevel, FormatMessage(fmt, m), Null, writable, FailedToLogText)
      else Success([])
    case LogDebug(m) =>
      if flags.debug && levels.isDebugEnabled then Write(DebugLevel, FormatMessage(fmt, m), Null, writable, FailedToLogText)
      else Success([])
    case LogWarning(m) =>
      if flags.warning && levels.isWarnEnabled then Write(WarnLevel, FormatMessage(fmt, m), Null, writable, FailedToLogText)
      else Success([])
    case LogError(s, m, e) =>
      if flags.error && levels.isErrorEnabled then
        var message := FormatMessage(fmt, m);
        match s
        case Low => if flags.lowError then WriteError(ErrorLevel, message, e, writable) else Success([])
        case Medium => if flags.mediumError then WriteError(ErrorLevel, message, e, writable) else Success([])
        case High => if flags.highError then WriteError(FatalLevel, message, e, writable) else Success([])
        case Extreme => if flags.extremeError then WriteError(FatalLevel, message, e, writable) else Success([])
        case None => Success([])
      else Success([])
    case LogMethodStart(h, n, v) =>
      if flags.info && levels.isInfoEnabled then
        Write(InfoLevel, FormatMethodStart(fmt, h, n, v), Null, writable, FailedMethodStartText)
      else Success([])
    case LogMethodEnd(h, ok) =>
      if flags.info && levels.isInfoEnabled then
        Write(InfoLevel, FormatMethodEnd(fmt, h, ok), Null, writable, FailedMethodEndText)
      else Success([])
  }

  /** An error of severity `None` emits nothing. */
  lemma NoneSeverityEmitsNothing(levels: Levels, writable: bool, flags: Flags, fmt: FormatterKind,
                                 m: Nullable<string>, e: Nullable<Exc>)
    ensures Emit(levels, writable, flags, fmt, LogError(None, m, e)) == Success([])
  {
  }

  /** The level of an emitted error event is decided by its severity alone. */
  lemma {:induction false} ErrorLevelBySeverity(levels: Levels, flags: Flags, fmt: FormatterKind,
                                                 s: ErrorSeverity, m: Nullable<string>, e: Nullable<Exc>)
    requires Admits(flags, LogError(s, m, e)) && levels.isErrorEnabled
    ensures |Emit(levels, true, flags, fmt, LogError(s, m, e)).value| == 1
    ensures Emit(levels, true, flags, fmt, LogError(s, m, e)).value[0].level
         == (if s == Low || s == Medium then ErrorLevel else FatalLevel)
  {
    assert s != None;
  }

  /** Unlike the event-log sink, the log4net sink never fails for its
      formatter's sake: it only uses the message overload. */
  lemma {:induction false} FormatterNeverFails(levels: Levels, flags: Flags, fmt: FormatterKind, c: Call)
    requires c.IsSpecialised()
    ensures Emit(levels, true, flags, fmt, c).Success?
  {
  }
}
