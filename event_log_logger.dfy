/** The gating of the platform event-log sink: each logging member checks its
    flags, asks its formatter for the text and writes one entry; any failure on
    the way is re-raised with the member's fixed text. The write itself is an
    entry appended to the sink's record trace, and `writable` says whether the
    platform accepts it. */
module EventLogLogger {
  import opened Definitions
  import opened Formatters

  /** The formatter installed when a null one is assigned. */
  const DefaultFormatter := EventLogFormat

  /** The text the member asks the formatter for. */
  function RecordText(fmt: FormatterKind, c: Call): Result<string, LoggerError>
    requires c.IsSpecialised()
  {
    match c
    case LogInfo(m) => Success(FormatMessage(fmt, m))
    case LogDebug(m) => Success(FormatMessage(fmt, m))
    case LogWarning(m) => Success(FormatMessage(fmt, m))
    case LogError(_, m, e) => FormatMessageWithException(fmt, m, e)
    case LogMethodStart(h, n, v) => Success(FormatMethodStart(fmt, h, n, v))
    case LogMethodEnd(h, s) => Success(FormatMethodEnd(fmt, h, s))
  }

  /** Debug events go to the log as information entries. */
  function EntryTypeOf(c: Call): EventLogEntryType
    requires c.IsSpecialised()
  {
    if c.LogWarning? then WarningEntry
    else if c.LogError? then ErrorEntry
    else InformationEntry
  }

  function WriteEntry(source: string, text: string, t: EventLogEntryType, eventId: int, writable: bool, failText: string)
    : Result<seq<Entry>, LoggerError>
  {
    if writable then Success([EventLogEntry(source, text, t, eventId)])
    else Failure(ExensibleLoggerException(failText))
  }

  function WriteError(source: string, fmt: FormatterKind, m: Nullable<string>, e: Nullable<Exc>, eventId: int, writable: bool)
    : Result<seq<Entry>, LoggerError>
  {
    match FormatMessageWithException(fmt, m, e)
    case Failure(_) => Failure(ExensibleLoggerException(FailedToLogText))
    case Success(text) => WriteEntry(source, text, ErrorEntry, eventId, writable, FailedToLogText)
  }

  /** `LogInfo`, `LogDebug`, `LogWarning`, `LogError`, `LogMethodStart` and
      `LogMethodEnd`: what one call writes. A call the flags admit writes
      exactly one entry of the formatted text, unless formatting or writing
      fails, in which case nothing is written and the call fails with its
      fixed text; a call the flags do not admit writes nothing. */
  function Emit(source: string, eventId: int, writable: bool, flags: Flags, fmt: FormatterKind, c: Call)
    : (r: Result<seq<Entry>, LoggerError>)
    requires c.IsSpecialised()
    ensures !Admits(flags, c) ==> r == Success([])
    ensures Admits(flags, c) && writable && RecordText(fmt, c).Success? ==>
      r == Success([EventLogEntry(source, RecordText(fmt, c).value, EntryTypeOf(c), eventId)])
    ensures Admits(flags, c) && (!writable || RecordText(fmt, c).Failure?) ==>
      r == Failure(ExensibleLoggerException(FailureText(c)))
  {
    match c
    case LogInfo(m) =>
      if flags.info then WriteEntry(source, FormatMessage(fmt, m), InformationEntry, eventId, writable, FailedToLogText)
      else Success([])
    case LogDebug(m) =>
      if flags.debug then WriteEntry(source, FormatMessage(fmt, m), InformationEntry, eventId, writable, FailedToLogText)
      else Success([])
    case LogWarning(m) =>
      if flags.warning then WriteEntry(source, FormatMessage(fmt, m), WarningEntry, eventId, writable, FailedToLogText)
      else Success([])
    case LogError(s, m, e) =>
      if flags.error then
        match s
        case Low => if flags.lowError then WriteError(source, fmt, m, e, eventId, writable) else Success([])
        case Medium => if flags.mediumError then WriteError(source, fmt, m, e, eventId, writable) else Success([])
        case High => if flags.highError then WriteError(source, fmt, m, e, eventId, writable) else Success([])
        case Extreme => if flags.extremeError then WriteError(source, fmt, m, e, eventId, writable) else Success([])
        case None => Success([])
      else Success([])
    case LogMethodStart(h, n, v) =>
      if flags.info then
        WriteEntry(source, FormatMethodStart(fmt, h, n, v), InformationEntry, eventId, writable, FailedMethodStartText)
      else Success([])
    case LogMethodEnd(h, ok) =>
      if flags.info then
        WriteEntry(source, FormatMethodEnd(fmt, h, ok), InformationEntry, eventId, writable, FailedMethodEndText)
      else Success([])
  }

  /** An error of severity `None` is never written. */
  lemma NoneSeverityWritesNothing(source: string, eventId: int, writable: bool, flags: Flags, fmt: FormatterKind,
                                  m: Nullable<string>, e: Nullable<Exc>)
    ensures Emit(source, eventId, writable, flags, fmt, LogError(None, m, e)) == Success([])
  {
  }

  /** An error whose severity flag is off is not written even when the error
      flag is on. */
  lemma SeverityFlagGatesErrors(source: string, eventId: int, writable: bool, flags: Flags, fmt: FormatterKind,
                                s: ErrorSeverity, m: Nullable<string>, e: Nullable<Exc>)
    requires flags.error && !SeverityEnabled(flags, s)
    ensures Emit(source, eventId, writable, flags, fmt, LogError(s, m, e)) == Success([])
  {
  }

  /** With its own formatter the sink writes an admitted error whenever the
      platform accepts the write; with the log4net formatter every admitted
      error fails, because that formatter does not implement the exception
      overload. */
  lemma ErrorFormatterDecides(source: string, eventId: int, flags: Flags, fmt: FormatterKind,
                              s: ErrorSeverity, m: Nullable<string>, e: Nullable<Exc>)
    requires Admits(flags, LogError(s, m, e))
    ensures Emit(source, eventId, true, flags, fmt, LogError(s, m, e)).Failure? <==> fmt == Log4NetFormat
  {
    FormatWithExceptionFails(fmt, m, e);
  }
}
