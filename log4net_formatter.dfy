/** The default formatter of the log4net sink: it ends complete messages with
    a fixed separator line and does not implement the exception overloads. */
module Log4NetFormatter {
  import opened Definitions
  import opened Strings
  import ParameterList

  /** A line break followed by sixty dashes. */
  const Separator := "\r\n------------------------------------------------------------"

  predicate EndsWithSeparator(s: string) {
    |s| >= |Separator| && s[|s| - |Separator|..] == Separator
  }

  lemma {:induction false} EndsWithSeparatorOf(s: string)
    ensures EndsWithSeparator(s + Separator)
  {
    var t := s + Separator;
    assert t[|t| - |Separator|..] == Separator;
  }

  /** `GetLogMessage(message)`: the message, with null read as empty, then the
      separator. */
  function GetLogMessage(message: Nullable<string>): (r: string)
    ensures EndsWithSeparator(r)
    ensures r[..|r| - |Separator|] == Normalize(message)
  {
    EndsWithSeparatorOf(Normalize(message));
    Normalize(message) + Separator
  }

  /** `GetLogMessage(exception)` always throws. */
  function GetExceptionMessage(exception: Nullable<Exc>): (r: Result<string, LoggerError>)
    ensures r == Failure(NotImplementedException)
  {
    Failure(NotImplementedException)
  }

  /** `GetLogMessage(message, exception)` always throws, even for a null
      exception. */
  function GetLogMessageWithException(message: Nullable<string>, exception: Nullable<Exc>): (r: Result<string, LoggerError>)
    ensures r == Failure(NotImplementedException)
  {
    Failure(NotImplementedException)
  }

  /** The specification of `GetMethodStartMessage`: the suffix `"."` and the
      separator come only after a loop that ran to its end. */
  function MethodStartText(header: string, names: Nullable<seq<string>>, values: Nullable<seq<Value>>): string {
    var started := header + " method started";
    if names.Null? || values.Null? then started
    else
      var listed := started + " with parameters: " + ParameterList.ListText(names.value, values.value);
      if ParameterList.Completes(names.value, values.value) then listed + "." + Separator else listed
  }

  /** `GetMethodStartMessage(header, parametersNames, parametersValues)`. */
  method GetMethodStartMessage(header: string, names: Nullable<seq<string>>, values: Nullable<seq<Value>>)
    returns (finalMessage: string)
    ensures finalMessage == MethodStartText(header, names, values)
  {
    finalMessage := header + " method started";
    if names.Some? && values.Some? {
      finalMessage := finalMessage + " with parameters: ";
      var completed;
      finalMessage, completed := ParameterList.AppendParameters(finalMessage, names.value, values.value);
      if completed {
        finalMessage := finalMessage + ("." + Separator);
      }
    }
  }

  /** Without both arrays the message has no separator. */
  lemma MethodStartWithoutParameters(header: string, names: Nullable<seq<string>>, values: Nullable<seq<Value>>)
    requires names.Null? || values.Null?
    ensures MethodStartText(header, names, values) == header + " method started"
  {
  }

  /** An empty list of names still gets the fixed words, the dot and the
      separator. */
  lemma MethodStartWithNoNames(header: string, values: seq<Value>)
    ensures MethodStartText(header, Some([]), Some(values))
         == header + " method started" + " with parameters: " + "." + Separator
  {
  }

  /** A full parameter list ends with the separator; a list cut short by
      missing values does not get it, and keeps its trailing `", "`. */
  lemma MethodStartSuffix(header: string, names: seq<string>, values: seq<Value>)
    ensures ParameterList.Completes(names, values) ==>
      EndsWithSeparator(MethodStartText(header, Some(names), Some(values)))
    ensures !ParameterList.Completes(names, values) ==>
      MethodStartText(header, Some(names), Some(values))
      == header + " method started" + " with parameters: " + ParameterList.ListText(names, values)
  {
    var listed := header + " method started" + " with parameters: " + ParameterList.ListText(names, values);
    if ParameterList.Completes(names, values) {
      assert listed + "." + Separator == (listed + ".") + Separator;
      EndsWithSeparatorOf(listed + ".");
    }
  }

  /** `GetMethodEndMessage(header, succeeded)`: the fixed text, which already
      ends with a dot, then another dot and the separator. */
  function GetMethodEndMessage(header: string, succeeded: bool): (r: string)
    ensures EndsWithSeparator(r)
    ensures r[..|r| - |Separator|] == header + (if succeeded then " ended successfully.." else " ended in failure..")
  {
    var finalMessage := header + " ended ";
    var worded := if succeeded then finalMessage + "successfully." else finalMessage + "in failure.";
    Appended(worded, ".", Separator);
    assert worded + "." == header + (if succeeded then " ended successfully.." else " ended in failure..");
    worded + ("." + Separator)
  }

  /** Cutting a suffix off a concatenation gives back what came before it. */
  lemma Appended(s: string, t: string, suffix: string)
    ensures s + (t + suffix) == (s + t) + suffix
    ensures (s + (t + suffix))[..|s + t|] == s + t
    ensures (s + (t + suffix))[|s + t|..] == suffix
  {
  }


}
