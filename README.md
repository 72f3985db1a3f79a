# ExtensibleLogger core in Dafny

This project models the core of the ExtensibleLogger library (C#). An
application logs through one uniform logger contract: info, debug, warning,
tiered-severity error, method-start and method-end events, eight setters for
the "is this class enabled" flags, and `Configure`. The library has these parts:

- **Registry.** `LoggerManager` maps string ids to `LoggerAvailability`
  entries. Each entry holds a backend and an `IsAvailable` flag. The registry
  adds, removes, enables and disables entries by id or by predicate.
- **Composite.** `SystemLogger` keeps eight flags of its own. It forwards every
  call to the backend of each registry entry (`ApplyOnLoggers`).
- **Backends.** There are two concrete backends, the platform event log and
  log4net. Each gates an event by its own flags (the log4net backend also by
  log4net's level checks), then asks its formatter for the text and writes one
  record. Any failure on
  the way is re-raised with a fixed message.
- **Dispatch.** The generic `Log` overloads of the logger base class hand the
  call to exactly one specialised member.
- **Formatters.** The two formatters build the record text. The log4net one
  appends a separator line and does not implement the exception overloads.

How each part is modelled:

- **Backend.** One Dafny class, `Backends.Logger`. It has its sink
  (`Sink`), its flags, its formatter and two ghost traces: the calls it
  received and the records it wrote. Every member call is a value of
  `Definitions.Call`. `Logger.Invoke` performs it, and its effect is proved
  equal to the pure `Backends.Step`.
- **Registry.** `Registry.LoggerManager` holds a `map` of `LoggerAvailability`
  objects. Its methods are proved against value-level maps of entries
  (`Entries`, `Unselected`, `SetSelected`).
- **Composite.** `Composite.SystemLogger` runs the fan-out as a loop over the
  registry's keys. Every forwarding member is proved to satisfy
  `FanOut.FannedOut`, which says:
  - the registry is left unchanged;
  - each backend received the call exactly once per visited id that holds it;
  - all ids were visited unless a call failed;
  - the fan-out fails exactly when some registered backend fails on that call;
  - a failure ends the fan-out: the backend that failed was called exactly
    once, its error is the outcome, and every other visited backend passed.
- **Order.** The enumeration order of the .NET dictionary is left unspecified.
  `Definitions.EnumerateKeys` yields each key once, in an arbitrary order.

The modules follow the source files:

| module | file | models |
|---|---|---|
| `Definitions` | definitions.dfy | enums, flags, calls, records, errors |
| `Strings` | strings.dfy | `IsNullOrEmpty` fallback, `TrimEnd('.')` |
| `LoggerBase` | logger_base.dfy | the generic `Log` overloads |
| `ParameterList` | parameter_list.dfy | the parameter loop shared by both formatters |
| `EventLogFormatter` | event_log_formatter.dfy | the event-log formatter |
| `Log4NetFormatter` | log4net_formatter.dfy | the log4net formatter |
| `Formatters` | formatters.dfy | the formatter a backend holds |
| `EventLogLogger` | event_log_logger.dfy | the event-log backend |
| `Log4NetLogger` | log4net_logger.dfy | the log4net backend |
| `Backends` | backends.dfy | the backend object and its `Step` |
| `Registry` | logger_manager.dfy | `LoggerManager` and `LoggerAvailability` |
| `FanOut` | fan_out.dfy | what a fan-out does, on values |
| `Composite` | system_logger.dfy | `SystemLogger` |
| `Scenarios` | scenarios.dfy | client programs with concrete outcomes |

## Availability is not consulted

`ApplyOnLoggers` (ExtensibleLogger/Definitions/SystemLogger.cs:296-311) never
reads `IsAvailable`. It skips only null entries and entries without a backend,
so a disabled entry's backend receives every forwarded call.
`FanOut.FannedOut` forwards to every entry that holds a backend, and
`Scenarios.DisabledEntryStillReceives` shows a disabled entry receiving a
forwarded `LogInfo`. Availability is stored, and can be toggled and read, but
nothing in this library consults it.

## Model

| member | source | states |
|---|---|---|
| Definitions.Flags.Set | ExtensibleLogger/Definitions/SystemLogger.cs:50-174 | a flag setter changes that one flag to the given value and leaves the other seven as they were |
| Definitions.DefaultsAgree | ExtensibleLogger/Implementations/EventLogLogger/EventLogLogger.cs:14-21 | every flag of a concrete backend starts enabled, and every flag of the composite starts disabled (its bool fields have no initialiser, SystemLogger.cs:12-19) |
| Definitions.EnumerateKeys | ExtensibleLogger/Definitions/SystemLogger.cs:302 | enumerating a dictionary yields every key exactly once and no other key |
| Strings.Normalize | ExtensibleLogger/Implementations/EventLogLogger/EventLogLogFormatter.cs:20-23 | a null message reads as the empty string; any other message is kept |
| Strings.TrimEndDots | ExtensibleLogger/Implementations/EventLogLogger/EventLogLogFormatter.cs:39 | the result is a prefix of the input that does not end with a dot, and only dots were removed |
| Strings.TrimEndDotsIdempotent | ExtensibleLogger/Implementations/EventLogLogger/EventLogLogFormatter.cs:66-67 | trimming twice is trimming once |
| Strings.TrimEndDotsRemovesAddedDots | ExtensibleLogger/Implementations/EventLogLogger/EventLogLogFormatter.cs:66-67 | any number of dots appended to a string without a trailing dot are all removed again |
| LoggerBase.Log | ExtensibleLogger/Definitions/LoggerBase.cs:79-98 | the four-argument `Log` calls the member of its incident type; the message reaches that member unchanged, and the severity and exception reach only `LogError` |
| LoggerBase.Resolve | ExtensibleLogger/Definitions/LoggerBase.cs:58-71 | the three-argument overloads pass a null exception, or a null message, to the same dispatch; the four-argument overload keeps the message and the exception; an error keeps the caller's severity |
| LoggerBase.MessageOverloadDelegates | ExtensibleLogger/Definitions/LoggerBase.cs:58-61 | `Log(t, s, message)` is `Log(t, s, message, null)` |
| LoggerBase.ExceptionOverloadDelegates | ExtensibleLogger/Definitions/LoggerBase.cs:68-71 | `Log(t, s, ex)` is `Log(t, s, null, ex)` |
| LoggerBase.LogInvertsIncidentOf | ExtensibleLogger/Definitions/LoggerBase.cs:81-97 | every specialised event call is what `Log` makes of its own incident type and payload, so dispatch loses nothing |
| LoggerBase.NonErrorIgnoresSeverityAndException | ExtensibleLogger/Definitions/LoggerBase.cs:83-91 | for info, debug and warning, the severity and the exception have no effect |
| ParameterList.PairsReadOnlyPrefix | ExtensibleLogger/Implementations/EventLogLogger/EventLogLogFormatter.cs:90-99 | the first n pairs depend only on the first n values |
| ParameterList.ExtraValuesIgnored | ExtensibleLogger/Implementations/EventLogLogger/EventLogLogFormatter.cs:90-99 | values beyond the last name never appear in the text |
| ParameterList.PairsExtend | ExtensibleLogger/Implementations/EventLogLogger/EventLogLogFormatter.cs:90-99 | the text after fewer iterations is a prefix of the text after more |
| ParameterList.PartialListIsPrefix | ExtensibleLogger/Implementations/EventLogLogger/EventLogLogFormatter.cs:88-104 | when the loop stops at the missing value, the text so far is kept: it is a prefix of what a full set of values gives, and it ends with a dangling `", "` once a pair was written |
| ParameterList.AppendParameters | ExtensibleLogger/Implementations/EventLogLogger/EventLogLogFormatter.cs:88-104 | the loop appends exactly the list text and reports whether every name had a value |
| EventLogFormatter.GetLogMessage | ExtensibleLogger/Implementations/EventLogLogger/EventLogLogFormatter.cs:18-26 | the message itself, or empty for null |
| EventLogFormatter.GetExceptionMessage | ExtensibleLogger/Implementations/EventLogLogger/EventLogLogFormatter.cs:32-45 | the text is empty exactly when the exception is null; otherwise it is `"Exception: "`, the exception message without trailing dots, `". Stack Trace: "` and the stack trace (empty for null) |
| EventLogFormatter.GetLogMessageWithException | ExtensibleLogger/Implementations/EventLogLogger/EventLogLogFormatter.cs:52-72 | without an exception it is the plain message text; with one it is the message without trailing dots, `". "`, and the exception text |
| EventLogFormatter.MessageDotsCollapse | ExtensibleLogger/Implementations/EventLogLogger/EventLogLogFormatter.cs:65-68 | however many dots the message ends with, exactly one dot separates it from the exception part |
| EventLogFormatter.GetMethodStartMessage | ExtensibleLogger/Implementations/EventLogLogger/EventLogLogFormatter.cs:80-108 | the method builds the method-start text, including the case cut short by a missing value |
| EventLogFormatter.MethodStartWithoutParameters | ExtensibleLogger/Implementations/EventLogLogger/EventLogLogFormatter.cs:82-84 | with either array null, the text is the header and `" method started"` only |
| EventLogFormatter.MethodStartWithParameters | ExtensibleLogger/Implementations/EventLogLogger/EventLogLogFormatter.cs:84-99 | with a value for every name, the text lists every `name=value` pair, and extra values change nothing |
| EventLogFormatter.GetMethodEndMessage | ExtensibleLogger/Implementations/EventLogLogger/EventLogLogFormatter.cs:115-129 | the header, then `" ended successfully."` or `" ended in failure."` |
| Log4NetFormatter.GetLogMessage | ExtensibleLogger/Implementations/Log4NetLogger/Log4NetLoggerLogFormatter.cs:21-31 | the text ends with the separator, and cutting the separator off gives the message (empty for null) |
| Log4NetFormatter.GetExceptionMessage | ExtensibleLogger/Implementations/Log4NetLogger/Log4NetLoggerLogFormatter.cs:37-40 | always fails with `NotImplementedException` |
| Log4NetFormatter.GetLogMessageWithException | ExtensibleLogger/Implementations/Log4NetLogger/Log4NetLoggerLogFormatter.cs:47-50 | always fails with `NotImplementedException`, even for a null exception |
| Log4NetFormatter.GetMethodStartMessage | ExtensibleLogger/Implementations/Log4NetLogger/Log4NetLoggerLogFormatter.cs:58-88 | the method builds the method-start text; `"."` and the separator are appended only when the loop runs to its end |
| Log4NetFormatter.MethodStartWithoutParameters | ExtensibleLogger/Implementations/Log4NetLogger/Log4NetLoggerLogFormatter.cs:60-62 | with either array null, the text is the header and `" method started"`, with no separator |
| Log4NetFormatter.MethodStartWithNoNames | ExtensibleLogger/Implementations/Log4NetLogger/Log4NetLoggerLogFormatter.cs:62-79 | an empty name array still gets the fixed words, the dot and the separator |
| Log4NetFormatter.MethodStartSuffix | ExtensibleLogger/Implementations/Log4NetLogger/Log4NetLoggerLogFormatter.cs:66-84 | a complete list ends with the separator; a list cut short by a missing value does not get it |
| Log4NetFormatter.GetMethodEndMessage | ExtensibleLogger/Implementations/Log4NetLogger/Log4NetLoggerLogFormatter.cs:95-111 | the text ends with the separator, and before it comes the fixed wording with a doubled final dot |
| Formatters.FormatWithExceptionFails | ExtensibleLogger/Implementations/Log4NetLogger/Log4NetLoggerLogFormatter.cs:47-50 | the message-with-exception overload fails exactly for the log4net formatter |
| Formatters.MessagesAgreeUpToSeparator | ExtensibleLogger/Implementations/Log4NetLogger/Log4NetLoggerLogFormatter.cs:21-31 | on a plain message, the log4net text is the event-log text plus the separator |
| Formatters.MethodEndsAgreeUpToSuffix | ExtensibleLogger/Implementations/Log4NetLogger/Log4NetLoggerLogFormatter.cs:95-111 | on a method end, the log4net text is the event-log text plus a dot and the separator |
| Formatters.MethodStartsAgreeUpToSuffix | ExtensibleLogger/Implementations/Log4NetLogger/Log4NetLoggerLogFormatter.cs:58-88 | on a method start, the log4net text is the event-log text, plus a dot and the separator only when both arrays are present and complete |
| EventLogLogger.Emit | ExtensibleLogger/Implementations/EventLogLogger/EventLogLogger.cs:244-384 | a call the flags do not admit writes nothing; an admitted call writes one entry of the formatted text and its entry type, or fails with the member's fixed text when formatting or the write fails |
| EventLogLogger.NoneSeverityWritesNothing | ExtensibleLogger/Implementations/EventLogLogger/EventLogLogger.cs:336-337 | an error of severity `None` is never written |
| EventLogLogger.SeverityFlagGatesErrors | ExtensibleLogger/Implementations/EventLogLogger/EventLogLogger.cs:304-338 | an error whose severity flag is off is not written, even if the error flag is on |
| EventLogLogger.ErrorFormatterDecides | ExtensibleLogger/Implementations/EventLogLogger/EventLogLogger.cs:300-345 | for either library formatter, when the platform accepts writes, an admitted error fails exactly when the backend holds the log4net formatter |
| Log4NetLogger.Emit | ExtensibleLogger/Implementations/Log4NetLogger/Log4NetLogger.cs:274-444 | a call that both the flags and log4net's level check admit emits one event, at its level, of the formatted text, with the error's exception attached, or fails with the member's fixed text; any other call emits nothing |
| Log4NetLogger.NoneSeverityEmitsNothing | ExtensibleLogger/Implementations/Log4NetLogger/Log4NetLogger.cs:396-397 | an error of severity `None` emits nothing |
| Log4NetLogger.ErrorLevelBySeverity | ExtensibleLogger/Implementations/Log4NetLogger/Log4NetLogger.cs:338-398 | an emitted error is a log4net error for low and medium severity and fatal for high and extreme |
| Log4NetLogger.FormatterNeverFails | ExtensibleLogger/Implementations/Log4NetLogger/Log4NetLogger.cs:330-336 | for either library formatter, with log4net accepting writes, the backend never fails, since it uses only the plain-message overload |
| Backends.ConfigureOutcome | ExtensibleLogger/Implementations/Log4NetLogger/Log4NetLogger.cs:203-269 | `Configure` passes on the event-log backend (EventLogLogger.cs:236-239) and on a log4net backend whose setup succeeds; otherwise it fails with "Failed to configure logger." |
| Backends.Step | ExtensibleLogger/Implementations/EventLogLogger/EventLogLogger.cs:112-384 | every member call is recorded once and keeps the formatter; a setter passes, sets its one flag and writes nothing; any other call keeps the flags; a failing call writes nothing |
| Backends.Specialise | ExtensibleLogger/Definitions/LoggerBase.cs:79-98 | a logging call always ends in one of the six specialised members |
| Backends.StepKeepsConfiguration | ExtensibleLogger/Implementations/EventLogLogger/EventLogLogger.cs:112-228 | no call changes the formatter, only a setter changes a flag, and each call is recorded once |
| Backends.RepeatRecords | ExtensibleLogger/Definitions/SystemLogger.cs:302-308 | a call repeated n times is recorded n times, and the formatter stays the same |
| Backends.RepeatFlags | ExtensibleLogger/Implementations/EventLogLogger/EventLogLogger.cs:112-228 | setting a flag several times is setting it once, and other calls leave the flags alone |
| Backends.RepeatOutcomeStable | ExtensibleLogger/Definitions/SystemLogger.cs:302-308 | with the sink's environment answers fixed, a repeated call fails or passes exactly as its first run did |
| Backends.GenericLogDispatches | ExtensibleLogger/Definitions/LoggerBase.cs:79-98 | a generic `Log` call writes and returns what the member it selects does, and changes no flag |
| Backends.StepWrites | ExtensibleLogger/Implementations/EventLogLogger/EventLogLogger.cs:244-384 | a passing logging call appends exactly what the sink emits; a failing one appends nothing |
| Backends.ConfigureChangesNothing | ExtensibleLogger/Implementations/EventLogLogger/EventLogLogger.cs:236-239 | `Configure` changes no flag, formatter or record, and always passes on the event-log backend |
| Backends.Logger.EventLog | ExtensibleLogger/Implementations/EventLogLogger/EventLogLogger.cs:83-104 | a new event-log backend has every flag on, the given formatter or the event-log default, and no history |
| Backends.Logger.Log4Net | ExtensibleLogger/Implementations/Log4NetLogger/Log4NetLogger.cs:67-71 | a new log4net backend has every flag on, the given formatter or the log4net default, and no history |
| Backends.Logger.SetLogFormatter | ExtensibleLogger/Implementations/EventLogLogger/EventLogLogger.cs:45-61 | a null formatter is replaced by the sink's default; nothing else changes |
| Backends.Logger.Invoke | ExtensibleLogger/Implementations/EventLogLogger/EventLogLogger.cs:112-384 | a member call changes the backend exactly as `Step` says and returns its outcome |
| Registry.LoggerAvailability.Empty | ExtensibleLogger/Definitions/ILoggerManager.cs:79-82 | no backend, not available |
| Registry.LoggerAvailability.Of | ExtensibleLogger/Definitions/ILoggerManager.cs:87-90 | the given backend, available |
| Registry.LoggerAvailability.constructor | ExtensibleLogger/Definitions/ILoggerManager.cs:96-100 | the given backend and availability |
| Registry.LoggerAvailability.SetLogger | ExtensibleLogger/Definitions/ILoggerManager.cs:68 | sets the backend and keeps the availability |
| Registry.LoggerAvailability.SetIsAvailable | ExtensibleLogger/Definitions/ILoggerManager.cs:72 | sets the availability and keeps the backend |
| Registry.WithAvailability | ExtensibleLogger/Definitions/LoggerManager.cs:157-163 | the entry keeps its backend and takes the new availability |
| Registry.Unselected | ExtensibleLogger/Definitions/LoggerManager.cs:69-85 | an id survives exactly when the predicate rejects its entry, and survivors are unchanged |
| Registry.UnselectedAmong | ExtensibleLogger/Definitions/LoggerManager.cs:75-83 | judging no id removes nothing; judging every id is `Unselected` |
| Registry.SetSelected | ExtensibleLogger/Definitions/LoggerManager.cs:139-151 | the same ids and backends, with the availability of exactly the selected entries set |
| Registry.SetSelectedAmong | ExtensibleLogger/Definitions/LoggerManager.cs:143-149 | visiting no id changes nothing; visiting every id is `SetSelected` |
| Registry.SetSelectedIdempotent | ExtensibleLogger/Definitions/LoggerManager.cs:98-117 | enabling (or disabling) the same selection twice is doing it once, for a predicate that ignores the flag it changes |
| Registry.LoggerManager.constructor | ExtensibleLogger/Definitions/LoggerManager.cs:13 | an empty registry |
| Registry.LoggerManager.AddLogger | ExtensibleLogger/Definitions/LoggerManager.cs:37-53 | a duplicate id fails and changes nothing, even for a null backend; a null backend is then ignored without error; otherwise one new available entry is added under the id and returned |
| Registry.LoggerManager.RemoveLogger | ExtensibleLogger/Definitions/LoggerManager.cs:58-64 | the registry loses that id, if it had it, and nothing else |
| Registry.LoggerManager.RemoveLoggers | ExtensibleLogger/Definitions/LoggerManager.cs:69-85 | exactly the entries the predicate selects are removed, the rest are the same objects, and a null predicate changes nothing |
| Registry.LoggerManager.EnableLogger | ExtensibleLogger/Definitions/LoggerManager.cs:90-93 | the entry under the id becomes available with its backend kept; an absent id changes nothing |
| Registry.LoggerManager.EnableLoggers | ExtensibleLogger/Definitions/LoggerManager.cs:98-101 | exactly the selected entries become available |
| Registry.LoggerManager.DisableLogger | ExtensibleLogger/Definitions/LoggerManager.cs:106-109 | the entry under the id becomes unavailable with its backend kept; an absent id changes nothing |
| Registry.LoggerManager.DisableLoggers | ExtensibleLogger/Definitions/LoggerManager.cs:114-117 | exactly the selected entries become unavailable |
| Registry.LoggerManager.EnableDisableById | ExtensibleLogger/Definitions/LoggerManager.cs:127-133 | sets the availability of the one entry under the id, if present |
| Registry.LoggerManager.EnableDisableWhere | ExtensibleLogger/Definitions/LoggerManager.cs:139-151 | sets the availability of exactly the entries the predicate selects, each judged as it was before the call; a null predicate changes nothing |
| Registry.LoggerManager.SetAvailability | ExtensibleLogger/Definitions/LoggerManager.cs:157-163 | sets a non-null entry's availability and keeps its backend; a null entry is ignored |
| FanOut.FanOutFromLoop | ExtensibleLogger/Definitions/SystemLogger.cs:296-311 | what the loop over the ids establishes is a complete fan-out |
| FanOut.FanOutForwards | ExtensibleLogger/Definitions/SystemLogger.cs:302-308 | each backend receives the call unchanged, once per visited id that holds it, so a complete fan-out reaches every backend at least once and a backend under two ids twice |
| FanOut.FanOutSetFlag | ExtensibleLogger/Definitions/SystemLogger.cs:57-61 | a flag setter never fails, and every registered backend ends with that flag set to the value; its other flags, its formatter and its records are unchanged |
| FanOut.SetFlagFanOutPasses | ExtensibleLogger/Definitions/SystemLogger.cs:50-174 | propagating a flag always passes |
| FanOut.RepeatWritesNothing | ExtensibleLogger/Implementations/EventLogLogger/EventLogLogger.cs:112-228 | setting a flag any number of times writes no record |
| FanOut.FanOutWithoutBackends | ExtensibleLogger/Definitions/SystemLogger.cs:298-304 | a registry without backends makes a fan-out a no-op that passes |
| FanOut.FanOutStopsAtFailure | ExtensibleLogger/Definitions/SystemLogger.cs:302-308 | a failure ends the fan-out: the backend that failed was called exactly once, its error is the outcome, and every other backend the fan-out called passed |
| FanOut.FanOutSkipsUnvisited | ExtensibleLogger/Definitions/SystemLogger.cs:302-308 | a backend held by no visited id is left untouched |
| Composite.CallInOrder | ExtensibleLogger/Definitions/SystemLogger.cs:302-308 | the loop calls the backend of each id in turn and skips ids without one; the ids it visits are a prefix of the order, and after a failure the last of them is the only one whose backend failed |
| Composite.CallBackend | ExtensibleLogger/Definitions/SystemLogger.cs:306 | calling one backend moves it one `Step` on and leaves every other backend as it was |
| Composite.Visit | ExtensibleLogger/Definitions/SystemLogger.cs:304-307 | one turn calls the id's backend, if any, exactly once more, and a failure it returns is that backend's |
| Composite.SystemLogger.constructor | ExtensibleLogger/Definitions/SystemLogger.cs:34-42 | the composite holds the manager, and its own flags start off |
| Composite.SystemLogger.Create | ExtensibleLogger/Definitions/SystemLogger.cs:34-42 | a null manager throws `ArgumentNullException("loggerManager")`; any other manager gives a new composite over it |
| Composite.SystemLogger.SetLoggerManager | ExtensibleLogger/Definitions/SystemLogger.cs:26 | replaces the manager, null included, and keeps the flags |
| Composite.SystemLogger.ApplyOnLoggers | ExtensibleLogger/Definitions/SystemLogger.cs:296-311 | the call is a fan-out over the registry, as `FannedOut` states; a null manager makes it a no-op |
| Composite.SystemLogger.SetFlag | ExtensibleLogger/Definitions/SystemLogger.cs:50-174 | the composite stores the value, then propagates it to every registered backend |
| Composite.SystemLogger.Configure | ExtensibleLogger/Definitions/SystemLogger.cs:182-185 | the same configuration map goes to every registered backend |
| Composite.SystemLogger.LogWithMessage | ExtensibleLogger/Definitions/SystemLogger.cs:192-195 | forwarded to every backend as the same generic overload |
| Composite.SystemLogger.LogWithException | ExtensibleLogger/Definitions/SystemLogger.cs:202-205 | forwarded to every backend as the same generic overload |
| Composite.SystemLogger.LogWithBoth | ExtensibleLogger/Definitions/SystemLogger.cs:213-216 | forwarded to every backend as the same generic overload |
| Composite.SystemLogger.LogInfo | ExtensibleLogger/Definitions/SystemLogger.cs:221-224 | forwarded to every backend |
| Composite.SystemLogger.LogDebug | ExtensibleLogger/Definitions/SystemLogger.cs:229-232 | forwarded to every backend |
| Composite.SystemLogger.LogWarning | ExtensibleLogger/Definitions/SystemLogger.cs:237-240 | forwarded to every backend |
| Composite.SystemLogger.LogError | ExtensibleLogger/Definitions/SystemLogger.cs:265-268 | forwarded to every backend |
| Composite.SystemLogger.LogMethodStart | ExtensibleLogger/Definitions/SystemLogger.cs:275-278 | forwarded to every backend |
| Composite.SystemLogger.LogMethodEnd | ExtensibleLogger/Definitions/SystemLogger.cs:284-287 | forwarded to every backend |
| Scenarios.RemoveThenReAdd | ExtensibleLogger/Definitions/LoggerManager.cs:37-64 | after a removal the id can be registered again, with a different backend |
| Scenarios.DuplicateAndNull | ExtensibleLogger/Definitions/LoggerManager.cs:37-53 | a second registration under an id fails with the duplicate-key message; a null backend under a new id returns null and registers nothing |
| Scenarios.DisableThenEnable | ExtensibleLogger/Definitions/LoggerManager.cs:90-109 | disabling and then enabling an entry makes it available again, with the same backend |
| Scenarios.FlagsAreNotRetroactive | ExtensibleLogger/Definitions/SystemLogger.cs:57-61 | a composite flag reaches only the backends registered at that time; a later backend keeps its own default |
| Scenarios.DisabledEntryStillReceives | ExtensibleLogger/Definitions/SystemLogger.cs:296-311 | a disabled entry's backend still receives a forwarded call: it has received exactly that `LogInfo` |
| Scenarios.FailureEndsFanOut | ExtensibleLogger/Definitions/SystemLogger.cs:296-311 | a backend held under two ids whose write fails receives the call once, and the composite fails with "Failed to log." |
| Scenarios.MediumErrorGated | ExtensibleLogger/Implementations/EventLogLogger/EventLogLogger.cs:315-321 | a medium error with its severity flag off is not written, though the error flag is on |

## Left out

- **Two-argument `LogError` overloads.** `LogError(severity, message)` and
  `LogError(severity, ex)` in LoggerBase.cs:119-131 call themselves, so they
  never return. The composite's forwarding versions (SystemLogger.cs:246-258)
  are left out with them, and `Call` has no such constructor.
- **log4net `Configure` internals.** The XML configuration and the fallback
  rolling-file and console appenders are not modelled. The sink's
  `configurable` input decides whether `Configure` passes or fails with
  "Failed to configure logger.". The sink's `levels` stay fixed across
  `Configure`. The source's fallback configuration also sets the root level to
  `Debug` (Log4NetLogger.cs:261), which would turn every level check on; the
  model does not change `levels` there.
- **User formatters.** Only the two library formatters are modelled.
  `SetLogFormatter` (EventLogLogger.cs:45-61) also accepts any user
  `ILogFormatter`, whose behaviour the model cannot know.
- ErrorFormatterDecides: holds for either library formatter only; a user
  formatter may fail or not as it likes.
- FormatterNeverFails: holds for either library formatter only; a user
  formatter's plain-message overload may throw.
- **The outside world.** Event-source creation in the event-log constructor
  and the OS and log4net writes are external. Whether a write succeeds is the
  sink's `writable` input. log4net's `IsXEnabled` answers are the sink's
  `levels`. The records written are a ghost trace.
- **A fixed environment.** `writable`, `levels` and `configurable` are fixed
  for a backend's whole life. A write that passes once and fails later (a
  transient OS or log4net failure) cannot be expressed.
  `Backends.RepeatOutcomeStable` and the `FannedOut` clause "fails exactly
  when some registered backend fails on that call" hold because of this; they
  are properties of that environment, not promises of the program.
- **Event-source creation failures.** `SourceExists` and `CreateEventSource`
  in the event-log constructor (EventLogLogger.cs:91-103) can throw.
  `Backends.Logger.EventLog` always succeeds, so that failure path is not
  modelled.
- **Other registries.** `SystemLogger` accepts any `ILoggerManager`
  (SystemLogger.cs:26, 34). The model fixes it to the concrete
  `Registry.LoggerManager`.
- **Backend setters.** The `Source`, `LogName`, `EventId` and `MachineName`
  setters of the event-log backend are left out. These values are fixed at
  construction.
- **Getters.** The flag getters are left out; the flags are plain fields.
- **The eight flag setters.** Each interface setter is one `SetFlag(kind,
  value)` call, and the eight composite setters are one method,
  `Composite.SystemLogger.SetFlag`.
- **The composite as a backend.** There are no traits, so one `SystemLogger`
  cannot be registered inside another. Backends are the two concrete sinks.
- **External writes to `Loggers`.** The registry's public `Loggers`
  dictionary can be written directly in the source. The model allows only the
  manager's methods, which keep `LoggerManager.Valid` (no entry object under
  two ids). For the same reason, the null-entry check of `ApplyOnLoggers`
  never fires.
- **Predicates.** A predicate sees only a value copy of the entry
  (`EntryView`), so it cannot mutate the entry or depend on allocation. A
  predicate is a total function, so one that throws part-way is left out; in
  the source that leaves the removals (LoggerManager.cs:75-83) or toggles
  (LoggerManager.cs:143-149) made before it in place.
- **Null ids.** Ids are plain strings. A null id makes the dictionary's
  `ContainsKey` throw `ArgumentNullException` (LoggerManager.cs:41, 60 and
  129); the model has no null id.
- **Inner exceptions.** The inner exception of a re-raised error is dropped;
  only the message is kept.
- **Exception details.** Exceptions expose only `Message` and `StackTrace`.
  A parameter value is the text its `ToString()` returns.
- **Null strings.** Headers and parameter names are plain strings. A null
  one concatenates like the empty string in C#, so nothing is lost.
- **Enum values.** Out-of-range enum values are left out. The `default`
  branches of the source's switches are reached only by `ErrorSeverity.None`.
- **Threads.** Thread safety and concurrency are left out. Nothing in the
  source synchronises.
- **Enumeration order.** The dictionary's enumeration order is left
  unspecified. `RemoveLoggers` walks a snapshot of the keys from last to
  first. That matches the source: removing the entry at index i keeps the
  order of the entries before it.
