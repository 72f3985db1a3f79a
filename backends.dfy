/** A backend of the uniform logger contract: one of the two concrete sinks,
    with its eight enable flags and its formatter. Every member call is
    modelled as one `Call` handed to `Logger.Invoke`, whose effect is the pure
    `Step`; the records a call writes and the calls a backend has received are
    ghost traces of the backend. */
module Backends {
  import opened Definitions
  import opened Formatters
  import LoggerBase
  import EventLogLogger
  import Log4NetLogger

  /** Which sink a backend is, with what it was built from and what its
      environment answers: whether the platform accepts writes, log4net's
      level checks and whether log4net's configuration succeeds. */
  datatype Sink =
    | EventLogSink(source: string, logName: string, eventId: int, machineName: Nullable<string>, writable: bool)
    | Log4NetSink(appenderName: string, levels: Log4NetLogger.Levels, writable: bool, configurable: bool)

  /** The formatter each sink installs in place of a null one. */
  function DefaultFormatter(sink: Sink): FormatterKind {
    match sink
    case EventLogSink(_, _, _, _, _) => EventLogLogger.DefaultFormatter
    case Log4NetSink(_, _, _, _) => Log4NetLogger.DefaultFormatter
  }

  /** What a specialised logging member of the sink writes, or the error it throws. */
  function Emit(sink: Sink, flags: Flags, fmt: FormatterKind, c: Call): Result<seq<Entry>, LoggerError>
    requires c.IsSpecialised()
  {
    match sink
    case EventLogSink(source, _, eventId, _, writable) => EventLogLogger.Emit(source, eventId, writable, flags, fmt, c)
    case Log4NetSink(_, levels, writable, _) => Log4NetLogger.Emit(levels, writable, flags, fmt, c)
  }

  /** `Configure`: nothing for the event-log sink, log4net's setup (which may
      fail) for the log4net sink. */
  function ConfigureOutcome(sink: Sink): (r: Outcome<LoggerError>)
    ensures r.Pass? <==> sink.EventLogSink? || sink.configurable
    ensures r.Fail? ==> r.error == ExensibleLoggerException(FailedToConfigureText)
  {
    match sink
    case EventLogSink(_, _, _, _, _) => Pass
    case Log4NetSink(_, _, _, configurable) =>
      if configurable then Pass else Fail(ExensibleLoggerException(FailedToConfigureText))
  }

  /** The specialised member a logging call runs: a generic `Log` call runs
      the member it resolves to. */
  function Specialise(c: Call): (r: Call)
    requires !c.SetFlag? && !c.Configure?
    ensures r.IsSpecialised()
  {
    if c.IsGeneric() then LoggerBase.Resolve(c) else c
  }

  /** The state of a backend that calls can change. */
  datatype BackendState = BackendState(flags: Flags, formatter: FormatterKind, received: seq<Call>, written: seq<Entry>)

  datatype StepResult = StepResult(state: BackendState, outcome: Outcome<LoggerError>)

  /** One member call on a backend: setters change one flag, `Configure`
      changes nothing, generic `Log` calls run the specialised member they
      resolve to, and a failing logging member writes nothing. */
  function Step(sink: Sink, s: BackendState, c: Call): (r: StepResult)
    ensures r.state.received == s.received + [c] && r.state.formatter == s.formatter
    ensures c.SetFlag? ==> r.outcome.Pass? && r.state.flags == s.flags.Set(c.flag, c.value)
                           && r.state.written == s.written
    ensures !c.SetFlag? ==> r.state.flags == s.flags
    ensures r.outcome.Fail? ==> r.state.written == s.written
  {
    var got := s.(received := s.received + [c]);
    match c
    case SetFlag(k, v) => StepResult(got.(flags := s.flags.Set(k, v)), Pass)
    case Configure(_) => StepResult(got, ConfigureOutcome(sink))
    case _ =>
      match Emit(sink, s.flags, s.formatter, Specialise(c))
      case Success(es) => StepResult(got.(written := s.written + es), Pass)
      case Failure(e) => StepResult(got, Fail(e))
  }

  /** The same call made `n` times. */
  function Repeat(sink: Sink, s: BackendState, c: Call, n: nat): BackendState {
    if n == 0 then s else Step(sink, Repeat(sink, s, c, n - 1), c).state
  }

  /** A call never changes the formatter, and only a setter changes a flag. */
  lemma StepKeepsConfiguration(sink: Sink, s: BackendState, c: Call)
    ensures Step(sink, s, c).state.formatter == s.formatter
    ensures !c.SetFlag? ==> Step(sink, s, c).state.flags == s.flags
    ensures Step(sink, s, c).state.received == s.received + [c]
  {
  }

  /** Repeating a call records it once per repetition. */
  lemma {:induction false} RepeatRecords(sink: Sink, s: BackendState, c: Call, n: nat)
    ensures Repeat(sink, s, c, n).received == s.received + seq(n, _ => c)
    ensures Repeat(sink, s, c, n).formatter == s.formatter
  {
    if n > 0 {
      RepeatRecords(sink, s, c, n - 1);
      assert s.received + seq(n - 1, _ => c) + [c] == s.received + seq(n, _ => c);
    }
  }

  /** Setting a flag once or several times has the same effect, and a call
      that is not a setter leaves every flag as it was. */
  lemma {:induction false} RepeatFlags(sink: Sink, s: BackendState, c: Call, n: nat)
    ensures c.SetFlag? && n > 0 ==> Repeat(sink, s, c, n).flags == s.flags.Set(c.flag, c.value)
    ensures !c.SetFlag? ==> Repeat(sink, s, c, n).flags == s.flags
  {
    if n > 0 {
      RepeatFlags(sink, s, c, n - 1);
      if c.SetFlag? && n > 1 {
        s.flags.SetTwice(c.flag, c.value);
      }
    }
  }

  /** Whether a call fails depends on the sink, the flags and the formatter
      only, so repeating a call gives the outcome of its first run every time. */
  lemma {:induction false} RepeatOutcomeStable(sink: Sink, s: BackendState, c: Call, n: nat)
    ensures Step(sink, Repeat(sink, s, c, n), c).outcome == Step(sink, s, c).outcome
  {
    RepeatRecords(sink, s, c, n);
    RepeatFlags(sink, s, c, n);
  }

  /** A generic `Log` call has the effect of the specialised member `Log`
      selects, apart from which call the backend records. */
  lemma GenericLogDispatches(sink: Sink, s: BackendState, t: IncidentType, sev: ErrorSeverity,
                             m: Nullable<string>, e: Nullable<Exc>)
    ensures Step(sink, s, LogWithBoth(t, sev, m, e)).outcome == Step(sink, s, LoggerBase.Log(t, sev, m, e)).outcome
    ensures Step(sink, s, LogWithBoth(t, sev, m, e)).state.written
         == Step(sink, s, LoggerBase.Log(t, sev, m, e)).state.written
    ensures Step(sink, s, LogWithBoth(t, sev, m, e)).state.flags == s.flags
  {
  }

  /** A backend that passes a logging call appends exactly what the sink
      emits; a backend that fails appends nothing. */
  lemma {:induction false} StepWrites(sink: Sink, s: BackendState, c: Call)
    requires c.IsSpecialised()
    ensures Emit(sink, s.flags, s.formatter, c).Success? ==>
      Step(sink, s, c) == StepResult(s.(received := s.received + [c],
                                         written := s.written + Emit(sink, s.flags, s.formatter, c).value), Pass)
    ensures Emit(sink, s.flags, s.formatter, c).Failure? ==>
      Step(sink, s, c) == StepResult(s.(received := s.received + [c]), Fail(Emit(sink, s.flags, s.formatter, c).error))
  {
    match c
    case LogInfo(_) =>
    case LogDebug(_) =>
    case LogWarning(_) =>
    case LogError(_, _, _) =>
    case LogMethodStart(_, _, _) =>
    case LogMethodEnd(_, _) =>
  }

  /** `Configure` passes the configuration unchanged and touches no state but
      the record of calls. */
  lemma ConfigureChangesNothing(sink: Sink, s: BackendState, cfg: Configuration)
    ensures Step(sink, s, Configure(cfg)).state == s.(received := s.received + [Configure(cfg)])
    ensures sink.EventLogSink? ==> Step(sink, s, Configure(cfg)).outcome == Pass
  {
  }

  /** One backend object: the sink it is, its eight flags, its formatter (never
      null), and the ghost traces of the calls it received and of the records
      it wrote. */
  class Logger {
    const sink: Sink
    var flags: Flags
    var formatter: FormatterKind
    ghost var received: seq<Call>
    ghost var written: seq<Entry>

    ghost function State(): BackendState
      reads this
    {
      BackendState(flags, formatter, received, written)
    }

    /** `EventLogLogger(source, logName, eventId, machineName, logFormatter)`. */
    constructor EventLog(source: string, logName: string, eventId: int, machineName: Nullable<string>,
                         logFormatter: Nullable<FormatterKind>, writable: bool)
      ensures sink == EventLogSink(source, logName, eventId, machineName, writable)
      ensures State() == BackendState(AllEnabled, logFormatter.GetOr(EventLogFormat), [], [])
    {
      sink := EventLogSink(source, logName, eventId, machineName, writable);
      flags := AllEnabled;
      received := [];
      written := [];
      new;
      SetLogFormatter(logFormatter);
    }

    /** `Log4NetLogger(log4netAppenderName, logFormatter)`. */
    constructor Log4Net(appenderName: string, logFormatter: Nullable<FormatterKind>, levels: Log4NetLogger.Levels,
                        writable: bool, configurable: bool)
      ensures sink == Log4NetSink(appenderName, levels, writable, configurable)
      ensures State() == BackendState(AllEnabled, logFormatter.GetOr(Log4NetFormat), [], [])
    {
      sink := Log4NetSink(appenderName, levels, writable, configurable);
      flags := AllEnabled;
      received := [];
      written := [];
      new;
      SetLogFormatter(logFormatter);
    }

    /** The `LogFormatter` setter: a null formatter is replaced by the sink's
        default one. */
    method SetLogFormatter(f: Nullable<FormatterKind>)
      modifies this
      ensures f.Some? ==> formatter == f.value
      ensures f.Null? ==> formatter == DefaultFormatter(sink)
      ensures flags == old(flags) && received == old(received) && written == old(written)
    {
      match f
      case Some(k) =>
        formatter := k;
      case Null =>
        formatter := DefaultFormatter(sink);
    }

    /** Any member of the uniform logger contract. */
    method Invoke(c: Call) returns (r: Outcome<LoggerError>)
      modifies this
      ensures State() == Step(sink, old(State()), c).state
      ensures r == Step(sink, old(State()), c).outcome
    {
      received := received + [c];
      match c
      case SetFlag(k, v) =>
        flags := flags.Set(k, v);
        r := Pass;
      case Configure(_) =>
        r := ConfigureOutcome(sink);
      case _ =>
        var emitted := Emit(sink, flags, formatter, Specialise(c));
        match emitted
        case Success(es) =>
          written := written + es;
          r := Pass;
        case Failure(e) =>
          r := Fail(e);
    }
  }
}
