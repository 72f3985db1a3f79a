/** Client programs that drive the registry and the composite logger: re-using
    a removed id, duplicate and null registrations, toggling availability,
    flag propagation, forwarding to a disabled entry, a failure ending the
    fan-out, and error gating. */
module Scenarios {
  import opened Definitions
  import opened Formatters
  import opened Backends
  import opened Registry
  import opened FanOut
  import opened Composite

  function EventLogAt(id: int): Sink {
    EventLogSink("App", "Application", id, Null, true)
  }

  /** Removing an id frees it: a different backend can then be registered
      under it, and the registry holds only that one. */
  method RemoveThenReAdd() returns (first: bool, second: bool, held: Logger?, size: nat)
    ensures first && second && size == 1 && held != null && held.sink == EventLogAt(2)
  {
    var m := new LoggerManager();
    var a := new Logger.EventLog("App", "Application", 1, Null, Null, true);
    var b := new Logger.EventLog("App", "Application", 2, Null, Null, true);
    var r1 := m.AddLogger("A", a);
    m.RemoveLogger("A");
    var r2 := m.AddLogger("A", b);
    first, second := r1.Success?, r2.Success?;
    held := m.loggers["A"].logger;
    size := |m.loggers|;
  }

  /** A second registration under the same id fails and keeps the first entry;
      a null backend under a new id is not registered and is not an error. */
  method DuplicateAndNull() returns (dup: Result<LoggerAvailability?, LoggerError>, none: Result<LoggerAvailability?, LoggerError>,
                                     size: nat)
    ensures dup == Failure(ExensibleLoggerException(DuplicateKeyText))
    ensures none == Success(null)
    ensures size == 1
  {
    var m := new LoggerManager();
    var a := new Logger.EventLog("App", "Application", 1, Null, Null, true);
    var _ := m.AddLogger("A", a);
    dup := m.AddLogger("A", null);
    none := m.AddLogger("B", null);
    size := |m.loggers|;
  }

  /** Disabling and enabling an entry makes it available again with the same
      backend. */
  method DisableThenEnable() returns (available: bool, same: bool)
    ensures available && same
  {
    var m := new LoggerManager();
    var a := new Logger.EventLog("App", "Application", 1, Null, Null, true);
    var _ := m.AddLogger("A", a);
    m.DisableLogger("A");
    m.EnableLogger("A");
    var e := m.loggers["A"];
    available, same := e.isAvailable, e.logger == a;
  }

  /** A registry holding one event-log backend under id "A", enabled or not. */
  method OneEntry(available: bool) returns (m: LoggerManager, a: Logger)
    ensures fresh(m) && fresh(a) && m.Valid()
    ensures m.loggers.Keys == {"A"} && m.loggers["A"].logger == a && m.loggers["A"].isAvailable == available
    ensures a.sink == EventLogAt(1) && a.State() == BackendState(AllEnabled, EventLogFormat, [], [])
  {
    m := new LoggerManager();
    a := new Logger.EventLog("App", "Application", 1, Null, Null, true);
    var _ := m.AddLogger("A", a);
    if !available {
      m.DisableLogger("A");
    }
  }

  /** What a composite over that registry sees. */
  lemma SeesOne(s: SystemLogger, a: Logger)
    requires s.manager != null && s.manager.loggers.Keys == {"A"} && s.manager.loggers["A"].logger == a
    ensures s.View() == map["A" := a] && s.Targets() == {a} && s.Snapshot() == map[a := a.State()]
  {
    var v := s.View();
    assert v == map["A" := a];
    assert a in v.Values by {
      assert v["A"] == a;
    }
    forall x | x in v.Values
      ensures x == a
    {
      var k :| k in v && v[k] == x;
    }
    assert v.Values == {a};
  }

  /** A backend with every flag on that the platform lets write passes an
      information message. */
  lemma InfoPasses(sink: Sink, st: BackendState, text: string)
    requires sink == EventLogAt(1) && st.flags == AllEnabled
    ensures Step(sink, st, Call.LogInfo(Some(text))).outcome == Pass
  {
  }

  lemma CountOne(a: Logger)
    ensures Count(map["A" := a], {"A"}, a) == 1
  {
    var view: map<string, Logger?> := map["A" := a];
    CountNone(view, a);
    CountAdd(view, {}, a, "A");
    assert {} + {"A"} == {"A"};
  }

  /** A flag set on the composite reaches the backends registered at that
      time only; a backend registered later keeps its own default. */
  method FlagsAreNotRetroactive() returns (before: bool, after: bool, own: bool)
    ensures !before && after && !own
  {
    var m, a := OneEntry(true);
    var s := new SystemLogger(m);
    SeesOne(s, a);
    ghost var v0, s0 := s.View(), s.Snapshot();
    ghost var visited := s.SetFlag(InfoFlag, false);
    FanOutSetFlag(v0, s0, s.View(), s.Snapshot(), InfoFlag, false, Pass, visited, a);
    SeesOne(s, a);
    before, own := a.flags.info, s.flags.info;
    var b := new Logger.EventLog("App", "Application", 2, Null, Null, true);
    var _ := m.AddLogger("B", b);
    after := b.flags.info;
  }

  /** A disabled entry still receives forwarded calls: availability is never
      consulted by the composite logger. */
  method DisabledEntryStillReceives() returns (r: Outcome<LoggerError>, enabledEntry: bool, ghost received: seq<Call>)
    ensures r == Pass && !enabledEntry
    ensures received == [Call.LogInfo(Some("x"))]
  {
    var m, a := OneEntry(false);
    var s := new SystemLogger(m);
    SeesOne(s, a);
    ghost var v0, s0 := s.View(), s.Snapshot();
    InfoPasses(a.sink, s0[a], "x");
    ghost var visited;
    r, visited := s.LogInfo(Some("x"));
    CountOne(a);
    assert v0.Keys == {"A"};
    FanOutForwards(v0, s0, s.View(), s.Snapshot(), Call.LogInfo(Some("x")), r, visited, a);
    SeesOne(s, a);
    assert a.received == [] + seq(1, _ => Call.LogInfo(Some("x")));
    enabledEntry := m.loggers["A"].isAvailable;
    received := a.received;
  }

  /** What a composite sees of a registry that holds one backend under the
      ids "A" and "B". */
  lemma SeesTwice(s: SystemLogger, a: Logger)
    requires s.manager != null && s.manager.loggers.Keys == {"A", "B"}
    requires s.manager.loggers["A"].logger == a && s.manager.loggers["B"].logger == a
    ensures s.View() == map["A" := a, "B" := a] && s.Targets() == {a} && s.Snapshot() == map[a := a.State()]
  {
    var v := s.View();
    assert v == map["A" := a, "B" := a];
    assert a in v.Values by {
      assert v["A"] == a;
    }
    forall x | x in v.Values
      ensures x == a
    {
      var k :| k in v && v[k] == x;
    }
    assert v.Values == {a};
  }

  /** A registry holding one event-log backend that the platform refuses to
      let write, under the ids "A" and "B". */
  method OneBackendTwice() returns (m: LoggerManager, a: Logger)
    ensures fresh(m) && fresh(a) && m.Valid()
    ensures m.loggers.Keys == {"A", "B"} && m.loggers["A"].logger == a && m.loggers["B"].logger == a
    ensures a.sink == EventLogSink("App", "Application", 1, Null, false)
    ensures a.State() == BackendState(AllEnabled, EventLogFormat, [], [])
  {
    m := new LoggerManager();
    a := new Logger.EventLog("App", "Application", 1, Null, Null, false);
    var _ := m.AddLogger("A", a);
    assert m.Entries()["A"].logger == a;
    var _ := m.AddLogger("B", a);
    assert m.Entries()["A"].logger == a && m.Entries()["B"].logger == a;
  }

  /** An information message on a backend the platform refuses fails. */
  lemma InfoFails(sink: Sink, st: BackendState, text: string)
    requires sink == EventLogSink("App", "Application", 1, Null, false) && st.flags == AllEnabled
    ensures Step(sink, st, Call.LogInfo(Some(text))).outcome == Fail(ExensibleLoggerException(FailedToLogText))
  {
  }

  /** A fan-out over a registry holding one backend twice, whose call fails:
      the backend receives the call once and its failure is the outcome. */
  lemma FailsOnce(v0: map<string, Logger?>, s0: map<Logger, BackendState>,
                  v1: map<string, Logger?>, s1: map<Logger, BackendState>,
                  c: Call, r: Outcome<LoggerError>, visited: set<string>, a: Logger)
    requires v0 == map["A" := a, "B" := a] && s0.Keys == {a}
    requires FannedOut(v0, s0, v1, s1, c, r, visited) && Step(a.sink, s0[a], c).outcome.Fail?
    ensures r == Step(a.sink, s0[a], c).outcome
    ensures s1[a].received == s0[a].received + [c]
  {
    FanOutStopsAtFailure(v0, s0, v1, s1, c, r, visited);
    StepKeepsConfiguration(a.sink, s0[a], c);
  }

  /** That backend's first call fails and ends the fan-out, so it receives
      the call once, not once per id. */
  method FailureEndsFanOut() returns (r: Outcome<LoggerError>, ghost received: seq<Call>)
    ensures r == Fail(ExensibleLoggerException(FailedToLogText))
    ensures received == [Call.LogInfo(Some("x"))]
  {
    var m, a := OneBackendTwice();
    var s := new SystemLogger(m);
    SeesTwice(s, a);
    ghost var v0, s0 := s.View(), s.Snapshot();
    InfoFails(a.sink, s0[a], "x");
    ghost var visited;
    r, visited := s.LogInfo(Some("x"));
    FailsOnce(v0, s0, s.View(), s.Snapshot(), Call.LogInfo(Some("x")), r, visited, a);
    SeesTwice(s, a);
    received := a.received;
  }

  /** An error of a severity whose flag is off is not written even though the
      error flag is on. */
  method MediumErrorGated(ex: Exc) returns (a: Logger, r: Outcome<LoggerError>)
    ensures r == Pass && a.written == [] && a.flags.error && !a.flags.mediumError
  {
    a := new Logger.EventLog("App", "Application", 1, Null, Null, true);
    var _ := a.Invoke(SetFlag(MediumErrorFlag, false));
    r := a.Invoke(LogError(Medium, Some("boom"), Some(ex)));
  }
}
