/** The generic `Log` entry points of the abstract logger base class: the two
    three-argument overloads delegate to the four-argument one, which switches
    on the incident type to exactly one specialised member. */
module LoggerBase {
  import opened Definitions

  /** The incident class a specialised event call belongs to. */
  function IncidentOf(c: Call): IncidentType
    requires c.LogInfo? || c.LogDebug? || c.LogWarning? || c.LogError?
  {
    if c.LogInfo? then Info
    else if c.LogDebug? then Debug
    else if c.LogWarning? then Warning
    else Error
  }

  /** `Log(type, severity, message, ex)`: the call it makes. The severity and
      the exception reach only the error member; the message reaches every
      member unchanged. */
  function Log(t: IncidentType, s: ErrorSeverity, message: Nullable<string>, ex: Nullable<Exc>): (r: Call)
    ensures r.LogInfo? || r.LogDebug? || r.LogWarning? || r.LogError?
    ensures IncidentOf(r) == t
    ensures r.message == message
    ensures r.LogError? ==> r.severity == s && r.ex == ex
  {
    match t
    case Info => LogInfo(message)
    case Debug => LogDebug(message)
    case Warning => LogWarning(message)
    case Error => LogError(s, message, ex)
  }

  /** The specialised call a generic call resolves to: `Log(t, s, message)`
      passes a null exception, `Log(t, s, ex)` a null message. */
  function Resolve(c: Call): (r: Call)
    requires c.IsGeneric()
    ensures r.IsSpecialised() && !r.LogMethodStart? && !r.LogMethodEnd?
    ensures IncidentOf(r) == c.incident
    ensures c.LogWithMessage? ==> r.message == c.message && (r.LogError? ==> r.ex == Null)
    ensures c.LogWithException? ==> r.message == Null && (r.LogError? ==> r.ex == c.ex)
    ensures c.LogWithBoth? ==> r.message == c.message && (r.LogError? ==> r.ex == c.ex)
    ensures r.LogError? ==> r.severity == c.severity
  {
    match c
    case LogWithMessage(t, s, m) => Log(t, s, m, Null)
    case LogWithException(t, s, e) => Log(t, s, Null, e)
    case LogWithBoth(t, s, m, e) => Log(t, s, m, e)
  }

  /** The three-argument overload with a message is the four-argument overload
      with a null exception. */
  lemma MessageOverloadDelegates(t: IncidentType, s: ErrorSeverity, m: Nullable<string>)
    ensures Resolve(LogWithMessage(t, s, m)) == Resolve(LogWithBoth(t, s, m, Null))
  {
  }

  /** The three-argument overload with an exception is the four-argument
      overload with a null message. */
  lemma ExceptionOverloadDelegates(t: IncidentType, s: ErrorSeverity, e: Nullable<Exc>)
    ensures Resolve(LogWithException(t, s, e)) == Resolve(LogWithBoth(t, s, Null, e))
  {
  }

  /** Dispatch is inverted by reading the call back: every specialised event
      call is what `Log` makes of its own incident type and payload. */
  lemma {:induction false} LogInvertsIncidentOf(c: Call, s: ErrorSeverity, e: Nullable<Exc>)
    requires c.LogInfo? || c.LogDebug? || c.LogWarning? || c.LogError?
    requires c.LogError? ==> s == c.severity && e == c.ex
    ensures Log(IncidentOf(c), s, c.message, e) == c
  {
    match c
    case LogInfo(_) =>
    case LogDebug(_) =>
    case LogWarning(_) =>
    case LogError(_, _, _) =>
  }

  /** For every type but `Error` the severity and the exception are dropped. */
  lemma NonErrorIgnoresSeverityAndException(t: IncidentType, s1: ErrorSeverity, s2: ErrorSeverity,
                                            m: Nullable<string>, e1: Nullable<Exc>, e2: Nullable<Exc>)
    requires t != Error
    ensures Log(t, s1, m, e1) == Log(t, s2, m, e2)
  {
  }
}
