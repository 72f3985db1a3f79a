/** The composite logger: it keeps eight enable flags of its own and forwards
    every member call, unchanged, to the backend of every registry entry that
    has one. The fan-out never reads an entry's availability, and, since it
    catches nothing, a backend whose call fails ends it. */
module Composite {
  import opened Definitions
  import opened Backends
  import opened Registry
  import opened FanOut

  /** Each backend of `t0` is in the state `cur` gives it. */
  ghost predicate Tracks(t0: set<Logger>, cur: map<Logger, BackendState>)
    reads t0
  {
    cur.Keys == t0 && forall b :: b in t0 ==> b.State() == cur[b]
  }

  /** The loop of `ApplyOnLoggers`: calls `c` on the backend held by each id
      in turn, skipping ids without one, until a call fails. The ids visited
      are the first `stop`, and after a failure the last of them is the one
      whose backend failed. */
  method CallInOrder(ids: seq<string>, backends: seq<Logger?>, c: Call,
                     ghost v0: map<string, Logger?>, ghost t0: set<Logger>, ghost s0: map<Logger, BackendState>)
    returns (r: Outcome<LoggerError>, ghost visited: set<string>, ghost cur: map<Logger, BackendState>,
             ghost stop: nat)
    requires Distinct(ids) && |backends| == |ids|
    requires forall k :: k in ids <==> k in v0
    requires forall j :: 0 <= j < |ids| ==> backends[j] == v0[ids[j]]
    requires forall k :: k in v0 && v0[k] != null ==> v0[k] in t0
    requires Tracks(t0, s0)
    modifies t0
    ensures visited <= v0.Keys
    ensures r.Pass? ==> visited == v0.Keys
    ensures Tracks(t0, cur)
    ensures Progress(v0, s0, cur, c, r, visited)
    ensures stop <= |ids| && forall j :: 0 <= j < |ids| ==> (ids[j] in visited <==> j < stop)
    ensures r.Fail? ==> 0 < stop && FailedAt(v0, s0, c, r, visited, ids[stop - 1])
  {
    visited := {};
    cur := s0;
    Begin(v0, s0, c);
    var i := 0;
    while i < |ids|
      invariant 0 <= i <= |ids|
      invariant visited <= v0.Keys
      invariant forall j :: 0 <= j < |ids| ==> (ids[j] in visited <==> j < i)
      invariant Tracks(t0, cur)
      invariant Progress(v0, s0, cur, c, Pass, visited)
    {
      r, cur := Visit(ids[i], backends[i], c, v0, t0, s0, cur, visited);
      PrefixGrows(ids, visited, i);
      visited := visited + {ids[i]};
      i := i + 1;
      if r.Fail? {
        // the exception leaves the loop
        stop := i;
        return;
      }
    }
    r, stop := Pass, i;
    assert visited == v0.Keys;
  }

  /** One turn of the loop: the backend `b` held by id `k`, if any, receives
      `c` once more. */
  method Visit(k: string, b: Logger?, c: Call, ghost v0: map<string, Logger?>, ghost t0: set<Logger>,
               ghost s0: map<Logger, BackendState>, ghost cur: map<Logger, BackendState>, ghost visited: set<string>)
    returns (r: Outcome<LoggerError>, ghost next: map<Logger, BackendState>)
    requires k in v0 && k !in visited && b == v0[k]
    requires b != null ==> b in t0
    requires Tracks(t0, cur)
    requires Progress(v0, s0, cur, c, Pass, visited)
    modifies t0
    ensures Tracks(t0, next)
    ensures Progress(v0, s0, next, c, r, visited + {k})
    ensures r.Fail? ==> FailedAt(v0, s0, c, r, visited + {k}, k)
  {
    r := Pass;
    next := cur;
    if b != null {
      RepeatOutcomeStable(b.sink, s0[b], c, Count(v0, visited, b));
      r, next := CallBackend(b, c, t0, cur);
    }
    Advance(v0, s0, cur, next, c, r, visited, k);
  }

  /** Calls `c` on the backend `b` of `t0`: `b` takes one step and every
      other backend keeps its state. */
  method CallBackend(b: Logger, c: Call, ghost t0: set<Logger>, ghost cur: map<Logger, BackendState>)
    returns (r: Outcome<LoggerError>, ghost next: map<Logger, BackendState>)
    requires b in t0 && Tracks(t0, cur)
    modifies t0
    ensures Tracks(t0, next)
    ensures next == cur[b := Step(b.sink, cur[b], c).state] && r == Step(b.sink, cur[b], c).outcome
  {
    label before:
    r := b.Invoke(c);
    next := cur[b := b.State()];
    assert forall b' :: b' in t0 && b' != b ==> b'.State() == old@before(b'.State());
  }

  /** Every backend the view names is a target, and the snapshot tracks the
      targets. */
  lemma TargetsOfView(s: SystemLogger)
    ensures forall k :: k in s.View() && s.View()[k] != null ==> s.View()[k] in s.Targets()
    ensures Tracks(s.Targets(), s.Snapshot())
  {
    forall k | k in s.View() && s.View()[k] != null
      ensures s.View()[k] in s.Targets()
    {
      assert s.View()[k] in s.View().Values;
    }
  }

  /** Calls on backends leave the registry, and so the view, as it was. */
  twostate lemma ViewKept(s: SystemLogger)
    requires unchanged(s) && s.manager != null && unchanged(s.manager) && unchanged(s.manager.loggers.Values)
    ensures s.View() == old(s.View()) && s.Targets() == old(s.Targets())
  {
  }

  lemma SnapshotOf(s: SystemLogger, cur: map<Logger, BackendState>)
    requires Tracks(s.Targets(), cur)
    ensures s.Snapshot() == cur
  {
  }

  /** `SystemLogger`. */
  class SystemLogger {
    var manager: LoggerManager?
    var flags: Flags

    /** The backend each registered id holds (null when its entry has none);
        availability is not part of it, as the fan-out never reads it. */
    ghost function View(): map<string, Logger?>
      reads this, manager, if manager != null then manager.loggers.Values else {}
    {
      if manager == null then map[] else map k | k in manager.loggers :: manager.loggers[k].logger
    }

    /** The backends a fan-out may call. */
    ghost function Targets(): set<Logger>
      reads this, manager, if manager != null then manager.loggers.Values else {}
    {
      set b: Logger | b in View().Values
    }

    /** The state of every backend a fan-out may call. */
    ghost function Snapshot(): map<Logger, BackendState>
      reads this, manager, if manager != null then manager.loggers.Values else {}, Targets()
    {
      map b | b in Targets() :: b.State()
    }

    /** `SystemLogger(loggerManager)` for a manager that is not null; the
        composite's own flags start false. */
    constructor (m: LoggerManager)
      ensures manager == m && flags == AllDisabled
    {
      manager := m;
      flags := AllDisabled;
    }

    /** `SystemLogger(loggerManager)`: a null manager throws. */
    static method Create(m: LoggerManager?) returns (r: Result<SystemLogger, LoggerError>)
      ensures m == null ==> r == Failure(ArgumentNullException("loggerManager"))
      ensures m != null ==> r.Success? && fresh(r.value) && r.value.manager == m && r.value.flags == AllDisabled
    {
      if m == null {
        return Failure(ArgumentNullException("loggerManager"));
      }
      var s := new SystemLogger(m);
      r := Success(s);
    }

    /** The `LoggerManager` setter; null is accepted and makes every fan-out a
        no-op. */
    method SetLoggerManager(m: LoggerManager?)
      modifies this
      ensures manager == m && flags == old(flags)
    {
      manager := m;
    }

    /** `ApplyOnLoggers(action)`: calls `c` on the backend of each entry, in
        the registry's enumeration order, skipping entries without one, until
        a call fails. */
    method ApplyOnLoggers(c: Call) returns (r: Outcome<LoggerError>, ghost visited: set<string>)
      modifies Targets()
      ensures FannedOut(old(View()), old(Snapshot()), View(), Snapshot(), c, r, visited)
    {
      ghost var v0, t0, s0 := View(), Targets(), Snapshot();
      TargetsOfView(this);
      if manager == null {
        r, visited := Pass, {};
        return;
      }
      var ids := EnumerateKeys(manager.loggers);
      var table := manager.loggers;
      var backends := seq(|ids|, j requires 0 <= j < |ids| && ids[j] in table reads table.Values =>
                                   table[ids[j]].logger);
      ghost var cur, stop;
      r, visited, cur, stop := CallInOrder(ids, backends, c, v0, t0, s0);
      ViewKept(this);
      SnapshotOf(this, cur);
      FanOutFromLoop(v0, s0, cur, c, r, visited);
    }

    /** The eight flag setters: the composite stores the value, then sets the
        same flag on every registered backend; this never fails. */
    method SetFlag(k: FlagKind, v: bool) returns (ghost visited: set<string>)
      modifies this, Targets()
      ensures flags == old(flags).Set(k, v) && manager == old(manager)
      ensures FannedOut(old(View()), old(Snapshot()), View(), Snapshot(), Call.SetFlag(k, v), Pass, visited)
    {
      ghost var v0, s0 := View(), Snapshot();
      flags := flags.Set(k, v);
      assert View() == v0 && Snapshot() == s0;
      var r;
      r, visited := ApplyOnLoggers(Call.SetFlag(k, v));
      SetFlagFanOutPasses(v0, s0, View(), Snapshot(), k, v, r, visited);
    }

    /** `Configure(configurations)`: the same map goes to every backend. */
    method Configure(configurations: Configuration) returns (r: Outcome<LoggerError>, ghost visited: set<string>)
      modifies Targets()
      ensures FannedOut(old(View()), old(Snapshot()), View(), Snapshot(), Call.Configure(configurations), r, visited)
    {
      r, visited := ApplyOnLoggers(Call.Configure(configurations));
    }

    /** `Log(type, severity, message)`: forwarded as the same overload. */
    method LogWithMessage(t: IncidentType, s: ErrorSeverity, message: Nullable<string>)
      returns (r: Outcome<LoggerError>, ghost visited: set<string>)
      modifies Targets()
      ensures FannedOut(old(View()), old(Snapshot()), View(), Snapshot(), Call.LogWithMessage(t, s, message), r, visited)
    {
      r, visited := ApplyOnLoggers(Call.LogWithMessage(t, s, message));
    }

    /** `Log(type, severity, ex)`: forwarded as the same overload. */
    method LogWithException(t: IncidentType, s: ErrorSeverity, ex: Nullable<Exc>)
      returns (r: Outcome<LoggerError>, ghost visited: set<string>)
      modifies Targets()
      ensures FannedOut(old(View()), old(Snapshot()), View(), Snapshot(), Call.LogWithException(t, s, ex), r, visited)
    {
      r, visited := ApplyOnLoggers(Call.LogWithException(t, s, ex));
    }

    /** `Log(type, severity, message, ex)`: forwarded as the same overload. */
    method LogWithBoth(t: IncidentType, s: ErrorSeverity, message: Nullable<string>, ex: Nullable<Exc>)
      returns (r: Outcome<LoggerError>, ghost visited: set<string>)
      modifies Targets()
      ensures FannedOut(old(View()), old(Snapshot()), View(), Snapshot(), Call.LogWithBoth(t, s, message, ex), r, visited)
    {
      r, visited := ApplyOnLoggers(Call.LogWithBoth(t, s, message, ex));
    }

    method LogInfo(message: Nullable<string>) returns (r: Outcome<LoggerError>, ghost visited: set<string>)
      modifies Targets()
      ensures FannedOut(old(View()), old(Snapshot()), View(), Snapshot(), Call.LogInfo(message), r, visited)
    {
      r, visited := ApplyOnLoggers(Call.LogInfo(message));
    }

    method LogDebug(message: Nullable<string>) returns (r: Outcome<LoggerError>, ghost visited: set<string>)
      modifies Targets()
      ensures FannedOut(old(View()), old(Snapshot()), View(), Snapshot(), Call.LogDebug(message), r, visited)
    {
      r, visited := ApplyOnLoggers(Call.LogDebug(message));
    }

    method LogWarning(message: Nullable<string>) returns (r: Outcome<LoggerError>, ghost visited: set<string>)
      modifies Targets()
      ensures FannedOut(old(View()), old(Snapshot()), View(), Snapshot(), Call.LogWarning(message), r, visited)
    {
      r, visited := ApplyOnLoggers(Call.LogWarning(message));
    }

    /** `LogError(severity, message, ex)`. */
    method LogError(severity: ErrorSeverity, message: Nullable<string>, ex: Nullable<Exc>)
      returns (r: Outcome<LoggerError>, ghost visited: set<string>)
      modifies Targets()
      ensures FannedOut(old(View()), old(Snapshot()), View(), Snapshot(), Call.LogError(severity, message, ex), r, visited)
    {
      r, visited := ApplyOnLoggers(Call.LogError(severity, message, ex));
    }

    method LogMethodStart(header: string, parametersNames: Nullable<seq<string>>, parametersValues: Nullable<seq<Value>>)
      returns (r: Outcome<LoggerError>, ghost visited: set<string>)
      modifies Targets()
      ensures FannedOut(old(View()), old(Snapshot()), View(), Snapshot(),
                        Call.LogMethodStart(header, parametersNames, parametersValues), r, visited)
    {
      r, visited := ApplyOnLoggers(Call.LogMethodStart(header, parametersNames, parametersValues));
    }

    method LogMethodEnd(header: string, succeeded: bool) returns (r: Outcome<LoggerError>, ghost visited: set<string>)
      modifies Targets()
      ensures FannedOut(old(View()), old(Snapshot()), View(), Snapshot(), Call.LogMethodEnd(header, succeeded), r, visited)
    {
      r, visited := ApplyOnLoggers(Call.LogMethodEnd(header, succeeded));
    }
  }
}
