/** Shared data of the extensible logger: the incident and severity enumerations,
    the eight enable flags every logger carries, the calls of the uniform logger
    contract, the records a sink writes, and the library's error kinds. */
module Definitions {

  /** A reference or string that may be null. */
  datatype Nullable<+T> = Null | Some(value: T) {
    function GetOr(default: T): T {
      match this
      case Some(v) => v
      case Null => default
    }
  }

  datatype Result<+T, +E> = Success(value: T) | Failure(error: E)

  /** The outcome of a call that returns nothing but may throw. */
  datatype Outcome<+E> = Pass | Fail(error: E)

  /** The coarse class of a log event. */
  datatype IncidentType = Info | Debug | Warning | Error

  /** The tier of an error event; `None` is a value of its own that no sink emits. */
  datatype ErrorSeverity = None | Low | Medium | High | Extreme

  /** The exceptions the library raises. */
  datatype LoggerError =
    | ExensibleLoggerException(message: string)
    | ArgumentNullException(paramName: string)
    | NotImplementedException

  const DuplicateKeyText := "A logger with the same key already exists."
  const FailedToLogText := "Failed to log."
  const FailedMethodStartText := "Failed in Log Method Start."
  const FailedMethodEndText := "Failed in Log Method End."
  const FailedToConfigureText := "Failed to configure logger."

  /** What a formatter reads from a system exception: its `Message` and its
      `StackTrace` (which may be null). */
  datatype Exc = Exc(message: string, stackTrace: Nullable<string>)

  /** A method parameter value: null, or the text its `ToString()` returns. */
  type Value = Nullable<string>

  /** A value of the open configuration map; the core never looks inside. */
  datatype ConfigValue = TextValue(text: string) | NumberValue(number: int)

  type Configuration = Nullable<map<string, ConfigValue>>

  /** The eight "is this event class enabled" flags. */
  datatype FlagKind =
    | InfoFlag | DebugFlag | WarningFlag | ErrorFlag
    | LowErrorFlag | MediumErrorFlag | HighErrorFlag | ExtremeErrorFlag

  datatype Flags = Flags(
    info: bool, debug: bool, warning: bool, error: bool,
    lowError: bool, mediumError: bool, highError: bool, extremeError: bool)
  {
    /** The getter of one flag. */
    function Get(k: FlagKind): bool {
      match k
      case InfoFlag => info
      case DebugFlag => debug
      case WarningFlag => warning
      case ErrorFlag => error
      case LowErrorFlag => lowError
      case MediumErrorFlag => mediumError
      case HighErrorFlag => highError
      case ExtremeErrorFlag => extremeError
    }

    /** The setter of one flag: it changes that flag and no other. */
    function Set(k: FlagKind, v: bool): (f: Flags)
      ensures f.Get(k) == v
      ensures forall k' :: k' != k ==> f.Get(k') == Get(k')
    {
      match k
      case InfoFlag => this.(info := v)
      case DebugFlag => this.(debug := v)
      case WarningFlag => this.(warning := v)
      case ErrorFlag => this.(error := v)
      case LowErrorFlag => this.(lowError := v)
      case MediumErrorFlag => this.(mediumError := v)
      case HighErrorFlag => this.(highError := v)
      case ExtremeErrorFlag => this.(extremeError := v)
    }

    /** Setting a flag a second time to the same value changes nothing. */
    lemma SetTwice(k: FlagKind, v: bool)
      ensures Set(k, v).Set(k, v) == Set(k, v)
    {
      match k
      case InfoFlag =>
      case DebugFlag =>
      case WarningFlag =>
      case ErrorFlag =>
      case LowErrorFlag =>
      case MediumErrorFlag =>
      case HighErrorFlag =>
      case ExtremeErrorFlag =>
    }
  }

  /** The field initialisers of both concrete sinks. */
  const AllEnabled := Flags(true, true, true, true, true, true, true, true)

  /** The default values of the composite logger's own bool fields. */
  const AllDisabled := Flags(false, false, false, false, false, false, false, false)

  lemma {:induction false} DefaultsAgree(k: FlagKind)
    ensures AllEnabled.Get(k) && !AllDisabled.Get(k)
  {
    match k
    case InfoFlag =>
    case DebugFlag =>
    case WarningFlag =>
    case ErrorFlag =>
    case LowErrorFlag =>
    case MediumErrorFlag =>
    case HighErrorFlag =>
    case ExtremeErrorFlag =>
  }

  /** One member of the uniform logger contract with its arguments: what the
      composite logger hands to every backend. The three `LogWith*` calls are
      the generic `Log` overloads; the two-argument `LogError` overloads are
      not part of the model. */
  datatype Call =
    | SetFlag(flag: FlagKind, value: bool)
    | Configure(configurations: Configuration)
    | LogWithMessage(incident: IncidentType, severity: ErrorSeverity, message: Nullable<string>)
    | LogWithException(incident: IncidentType, severity: ErrorSeverity, ex: Nullable<Exc>)
    | LogWithBoth(incident: IncidentType, severity: ErrorSeverity, message: Nullable<string>, ex: Nullable<Exc>)
    | LogInfo(message: Nullable<string>)
    | LogDebug(message: Nullable<string>)
    | LogWarning(message: Nullable<string>)
    | LogError(severity: ErrorSeverity, message: Nullable<string>, ex: Nullable<Exc>)
    | LogMethodStart(header: string, parametersNames: Nullable<seq<string>>, parametersValues: Nullable<seq<Value>>)
    | LogMethodEnd(header: string, succeeded: bool)
  {
    /** One of the three generic `Log` overloads. */
    predicate IsGeneric() {
      LogWithMessage? || LogWithException? || LogWithBoth?
    }

    /** One of the six specialised logging members a sink implements. */
    predicate IsSpecialised() {
      LogInfo? || LogDebug? || LogWarning? || LogError? || LogMethodStart? || LogMethodEnd?
    }
  }

  /** The severity-specific flag that gates an error of severity `s`. */
  predicate SeverityEnabled(f: Flags, s: ErrorSeverity) {
    match s
    case None => false
    case Low => f.lowError
    case Medium => f.mediumError
    case High => f.highError
    case Extreme => f.extremeError
  }

  /** The gating rule shared by the sinks: info, debug and warning events need
      their own flag, an error needs the error flag and the flag of its
      severity, and method start and end events need the info flag. */
  predicate Admits(f: Flags, c: Call)
    requires c.IsSpecialised()
  {
    match c
    case LogInfo(_) => f.info
    case LogDebug(_) => f.debug
    case LogWarning(_) => f.warning
    case LogError(s, _, _) => f.error && SeverityEnabled(f, s)
    case LogMethodStart(_, _, _) => f.info
    case LogMethodEnd(_, _) => f.info
  }

  /** The fixed text with which a sink re-raises a failure of a logging member. */
  function FailureText(c: Call): string
    requires c.IsSpecialised()
  {
    if c.LogMethodStart? then FailedMethodStartText
    else if c.LogMethodEnd? then FailedMethodEndText
    else FailedToLogText
  }

  /** The entry types of the platform event log. */
  datatype EventLogEntryType = InformationEntry | WarningEntry | ErrorEntry

  /** The log4net levels the sink uses. */
  datatype Log4NetLevel = DebugLevel | InfoLevel | WarnLevel | ErrorLevel | FatalLevel

  /** One record written to a sink. */
  datatype Entry =
    | EventLogEntry(source: string, text: string, entryType: EventLogEntryType, eventId: int)
    | Log4NetEvent(level: Log4NetLevel, text: string, ex: Nullable<Exc>)

  predicate Distinct<K(==)>(ks: seq<K>) {
    forall i, j :: 0 <= i < j < |ks| ==> ks[i] != ks[j]
  }

  /** Marking the next element of a walk from the front keeps the marked
      elements a prefix. */
  lemma PrefixGrows<K>(ks: seq<K>, done: set<K>, i: nat)
    requires Distinct(ks) && i < |ks|
    requires forall j :: 0 <= j < |ks| ==> (ks[j] in done <==> j < i)
    ensures forall j :: 0 <= j < |ks| ==> (ks[j] in done + {ks[i]} <==> j < i + 1)
  {
    forall j | 0 <= j < |ks|
      ensures ks[j] in done + {ks[i]} <==> j < i + 1
    {
      if ks[j] == ks[i] {
        assert j == i;
      }
    }
  }

  /** Marking the next element of a walk from the back keeps the marked
      elements a suffix. */
  lemma SuffixGrows<K>(ks: seq<K>, done: set<K>, i: nat)
    requires Distinct(ks) && i < |ks|
    requires forall j :: 0 <= j < |ks| ==> (ks[j] in done <==> i < j)
    ensures forall j :: 0 <= j < |ks| ==> (ks[j] in done + {ks[i]} <==> i - 1 < j)
  {
    forall j | 0 <= j < |ks|
      ensures ks[j] in done + {ks[i]} <==> i - 1 < j
    {
      if ks[j] == ks[i] {
        assert j == i;
      }
    }
  }

  /** Lists the keys of a dictionary once each, in an order left unspecified
      (as the enumeration order of a .NET dictionary is). */
  method EnumerateKeys<K(==), V>(m: map<K, V>) returns (ks: seq<K>)
    ensures Distinct(ks)
    ensures forall k :: k in ks <==> k in m
  {
    ks := [];
    var rest := m.Keys;
    while rest != {}
      invariant Distinct(ks)
      invariant forall k :: k in ks <==> k in m && k !in rest
      invariant rest <= m.Keys
      decreases rest
    {
      var k :| k in rest;
      ks := ks + [k];
      rest := rest - {k};
    }
  }
}
