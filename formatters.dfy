/** The formatter capability: a sink holds one of the two formatters and asks
    it for the text of each record. */
module Formatters {
  import opened Definitions
  import EventLogFormatter
  import Log4NetFormatter
  import ParameterList

  datatype FormatterKind = EventLogFormat | Log4NetFormat

  function FormatMessage(k: FormatterKind, message: Nullable<string>): string {
    match k
    case EventLogFormat => EventLogFormatter.GetLogMessage(message)
    case Log4NetFormat => Log4NetFormatter.GetLogMessage(message)
  }

  function FormatMessageWithException(k: FormatterKind, message: Nullable<string>, ex: Nullable<Exc>)
    : Result<string, LoggerError>
  {
    match k
    case EventLogFormat => Success(EventLogFormatter.GetLogMessageWithException(message, ex))
    case Log4NetFormat => Log4NetFormatter.GetLogMessageWithException(message, ex)
  }

  function FormatMethodStart(k: FormatterKind, header: string, names: Nullable<seq<string>>, values: Nullable<seq<Value>>)
    : string
  {
    match k
    case EventLogFormat => EventLogFormatter.MethodStartText(header, names, values)
    case Log4NetFormat => Log4NetFormatter.MethodStartText(header, names, values)
  }

  function FormatMethodEnd(k: FormatterKind, header: string, succeeded: bool): string {
    match k
    case EventLogFormat => EventLogFormatter.GetMethodEndMessage(header, succeeded)
    case Log4NetFormat => Log4NetFormatter.GetMethodEndMessage(header, succeeded)
  }

  /** Only the log4net formatter fails, and it fails on every exception
      overload call. */
  lemma FormatWithExceptionFails(k: FormatterKind, message: Nullable<string>, ex: Nullable<Exc>)
    ensures FormatMessageWithException(k, message, ex).Failure? <==> k == Log4NetFormat
  {
  }

  /** The two formatters agree on a plain message up to the separator. */
  lemma MessagesAgreeUpToSeparator(message: Nullable<string>)
    ensures FormatMessage(Log4NetFormat, message)
         == FormatMessage(EventLogFormat, message) + Log4NetFormatter.Separator
  {
  }

  /** The log4net method-end text is the event-log one plus a dot and the
      separator (hence its double dot). */
  lemma MethodEndsAgreeUpToSuffix(header: string, succeeded: bool)
    ensures FormatMethodEnd(Log4NetFormat, header, succeeded)
         == FormatMethodEnd(EventLogFormat, header, succeeded) + "." + Log4NetFormatter.Separator
  {
    var e := FormatMethodEnd(EventLogFormat, header, succeeded);
    var l := FormatMethodEnd(Log4NetFormat, header, succeeded);
    assert l[..|l| - |Log4NetFormatter.Separator|] == e + ".";
  }

  /** The log4net method-start text is the event-log one, plus a dot and the
      separator when both arrays are present and every name has a value. */
  lemma MethodStartsAgreeUpToSuffix(header: string, names: Nullable<seq<string>>, values: Nullable<seq<Value>>)
    ensures FormatMethodStart(Log4NetFormat, header, names, values)
         == FormatMethodStart(EventLogFormat, header, names, values)
            + (if names.Some? && values.Some? && ParameterList.Completes(names.value, values.value)
               then "." + Log4NetFormatter.Separator else "")
  {
  }
}
