/** The default formatter of the event-log sink. */
module EventLogFormatter {
  import opened Definitions
  import opened Strings
  import ParameterList

  /** `GetLogMessage(message)`: the message, with null read as empty. */
  function GetLogMessage(message: Nullable<string>): (r: string)
    ensures message.Some? ==> r == message.value
    ensures message.Null? ==> r == ""
  {
    Normalize(message)
  }

  /** The `"Exception: <message>. Stack Trace: <trace>"` part shared by both
      exception overloads; the exception message loses its trailing dots so
      that exactly one dot follows it. */
  function ExceptionPart(e: Exc): string {
    "Exception: " + TrimEndDots(e.message) + ". Stack Trace: " + Normalize(e.stackTrace)
  }

  /** `GetLogMessage(exception)`: empty for a null exception, otherwise the
      exception's message without trailing dots and its stack trace. */
  function GetExceptionMessage(exception: Nullable<Exc>): (r: string)
    ensures exception.Null? <==> r == ""
    ensures exception.Some? ==>
      r == "Exception: " + TrimEndDots(exception.value.message) + ". Stack Trace: "
           + Normalize(exception.value.stackTrace)
  {
    match exception
    case Null => ""
    case Some(e) => ExceptionPart(e)
  }

  /** `GetLogMessage(message, exception)`. */
  function GetLogMessageWithException(message: Nullable<string>, exception: Nullable<Exc>): (r: string)
    ensures exception.Null? ==> r == GetLogMessage(message)
    ensures exception.Some? ==> r == TrimEndDots(GetLogMessage(message)) + ". " + GetExceptionMessage(exception)
  {
    var m := Normalize(message);
    match exception
    case Null => m
    case Some(e) => TrimEndDots(m) + ". " + ExceptionPart(e)
  }

  /** A non-empty message with an exception is separated from the exception
      part by exactly one dot, whatever dots the message ended with. */
  lemma {:induction false} MessageDotsCollapse(s: string, n: nat, e: Exc)
    requires |s| == 0 || s[|s| - 1] != '.'
    ensures GetLogMessageWithException(Some(s + seq(n, _ => '.')), Some(e))
         == s + ". " + ExceptionPart(e)
  {
    TrimEndDotsRemovesAddedDots(s, n);
  }

  /** The specification of `GetMethodStartMessage`. */
  function MethodStartText(header: string, names: Nullable<seq<string>>, values: Nullable<seq<Value>>): string {
    var started := header + " method started";
    if names.Null? || values.Null? then started
    else started + " with parameters: " + ParameterList.ListText(names.value, values.value)
  }

  /** `GetMethodStartMessage(header, parametersNames, parametersValues)`. */
  method GetMethodStartMessage(header: string, names: Nullable<seq<string>>, values: Nullable<seq<Value>>)
    returns (finalMessage: string)
    ensures finalMessage == MethodStartText(header, names, values)
  {
    finalMessage := header + " method started";
    if names.Some? && values.Some? {
      finalMessage := finalMessage + " with parameters: ";
      var completed;
      finalMessage, completed := ParameterList.AppendParameters(finalMessage, names.value, values.value);
    }
  }

  /** Without both arrays the message is the header and the fixed words only. */
  lemma MethodStartWithoutParameters(header: string, names: Nullable<seq<string>>, values: Nullable<seq<Value>>)
    requires names.Null? || values.Null?
    ensures MethodStartText(header, names, values) == header + " method started"
  {
  }

  /** With both arrays the message names each parameter after the fixed words,
      and extra values are ignored. */
  lemma MethodStartWithParameters(header: string, names: seq<string>, values: seq<Value>)
    requires ParameterList.Completes(names, values)
    ensures MethodStartText(header, Some(names), Some(values))
         == header + " method started" + " with parameters: " + ParameterList.Pairs(names, values, |names|)
    ensures MethodStartText(header, Some(names), Some(values))
         == MethodStartText(header, Some(names), Some(values[..|names|]))
  {
    ParameterList.ExtraValuesIgnored(names, values);
  }

  /** `GetMethodEndMessage(header, succeeded)`. */
  function GetMethodEndMessage(header: string, succeeded: bool): (r: string)
    ensures r == header + (if succeeded then " ended successfully." else " ended in failure.")
  {
    var finalMessage := header + " ended ";
    if succeeded then finalMessage + "successfully." else finalMessage + "in failure."
  }
}
