/** The fan-out of one call over a registry, on values: which backend
    states a visit of some of the registry's ids produces, and what the
    outcome of the visit says about the backends. */
module FanOut {
  import opened Definitions
  import opened Backends

  /** The number of ids among `keys` whose entry holds backend `b`: how many
      times a fan-out over those ids calls `b`. */
  function Count(view: map<string, Logger?>, keys: set<string>, b: Logger): nat {
    |set k | k in keys && k in view && view[k] == b|
  }

  lemma CountNone(view: map<string, Logger?>, b: Logger)
    ensures Count(view, {}, b) == 0
  {
  }

  lemma {:induction false} CountAdd(view: map<string, Logger?>, keys: set<string>, b: Logger, k: string)
    requires k !in keys && k in view
    ensures Count(view, keys + {k}, b) == Count(view, keys, b) + (if view[k] == b then 1 else 0)
  {
    var before := set k' | k' in keys && k' in view && view[k'] == b;
    var after := set k' | k' in keys + {k} && k' in view && view[k'] == b;
    if view[k] == b {
      assert after == before + {k};
    } else {
      assert after == before;
    }
  }

  lemma {:induction false} CountPositive(view: map<string, Logger?>, keys: set<string>, b: Logger, k: string)
    requires k in keys && k in view && view[k] == b
    ensures Count(view, keys, b) >= 1
  {
    var s := set k' | k' in keys && k' in view && view[k'] == b;
    assert k in s;
  }

  /** What one fan-out of call `c` did, from the registry view `v0` and the
      backend states `s0` before it to the view `v1` and states `s1` after it:
      the registry is unchanged, every backend was called once per visited id
      that holds it, the fan-out visited every id unless it failed, and it
      failed exactly when some registered backend fails on `c`, with that
      backend's error. */
  ghost predicate FannedOut(v0: map<string, Logger?>, s0: map<Logger, BackendState>,
                            v1: map<string, Logger?>, s1: map<Logger, BackendState>,
                            c: Call, r: Outcome<LoggerError>, visited: set<string>)
  {
    && v1 == v0
    && (forall b :: b in s0 ==> b in v0.Values)
    && (forall k :: k in v0 && v0[k] != null ==> v0[k] in s0)
    && s1.Keys == s0.Keys
    && visited <= v0.Keys
    && (r.Pass? ==> visited == v0.Keys)
    && (forall b :: b in s0 ==> s1[b] == Repeat(b.sink, s0[b], c, Count(v0, visited, b)))
    && (r.Pass? <==> forall b :: b in s0 ==> Step(b.sink, s0[b], c).outcome.Pass?)
    && (r.Fail? ==> exists k :: FailedAt(v0, s0, c, r, visited, k))
  }

  /** The fan-out stopped at id `k`: it visited `k`, whose backend gave the
      failure `r`, and the backend of every other visited id passed. */
  ghost predicate FailedAt(v0: map<string, Logger?>, s0: map<Logger, BackendState>, c: Call,
                           r: Outcome<LoggerError>, visited: set<string>, k: string)
  {
    && k in visited && k in v0 && v0[k] != null && v0[k] in s0
    && r == Step(v0[k].sink, s0[v0[k]], c).outcome
    && forall k' :: k' in visited && k' != k && k' in v0 && v0[k'] != null && v0[k'] in s0 ==>
                    Step(v0[k'].sink, s0[v0[k']], c).outcome.Pass?
  }

  /** What a loop over the registry ids establishes is a fan-out. */
  lemma FanOutFromLoop(v0: map<string, Logger?>, s0: map<Logger, BackendState>, s1: map<Logger, BackendState>,
                       c: Call, r: Outcome<LoggerError>, visited: set<string>)
    requires forall b :: b in s0 ==> b in v0.Values
    requires forall k :: k in v0 && v0[k] != null ==> v0[k] in s0
    requires visited <= v0.Keys
    requires r.Pass? ==> visited == v0.Keys
    requires Progress(v0, s0, s1, c, r, visited)
    ensures FannedOut(v0, s0, v0, s1, c, r, visited)
  {
    if r.Pass? {
      forall b | b in s0
        ensures Step(b.sink, s0[b], c).outcome.Pass?
      {
        var k :| k in v0 && v0[k] == b;
      }
    } else {
      var k :| FailedAt(v0, s0, c, r, visited, k);
      assert !Step(v0[k].sink, s0[v0[k]], c).outcome.Pass?;
    }
  }

  /** Each backend receives the call, unchanged, once per visited id that holds
      it; after a complete fan-out that is once per id, so a backend
      registered under two ids receives it twice. */
  lemma {:induction false} FanOutForwards(v0: map<string, Logger?>, s0: map<Logger, BackendState>,
                                          v1: map<string, Logger?>, s1: map<Logger, BackendState>,
                                          c: Call, r: Outcome<LoggerError>, visited: set<string>, b: Logger)
    requires FannedOut(v0, s0, v1, s1, c, r, visited) && b in s0
    ensures s1[b].received == s0[b].received + seq(Count(v0, visited, b), _ => c)
    ensures r.Pass? ==> s1[b].received == s0[b].received + seq(Count(v0, v0.Keys, b), _ => c)
    ensures r.Pass? ==> Count(v0, v0.Keys, b) >= 1
  {
    RepeatRecords(b.sink, s0[b], c, Count(v0, visited, b));
    if r.Pass? {
      assert b in v0.Values;
      var k :| k in v0 && v0[k] == b;
      CountPositive(v0, v0.Keys, b, k);
    }
  }

  /** A setter never fails, and every registered backend ends with the flag
      set as the composite's own, its other flags and its formatter untouched
      and nothing written. */
  lemma {:induction false} FanOutSetFlag(v0: map<string, Logger?>, s0: map<Logger, BackendState>,
                                         v1: map<string, Logger?>, s1: map<Logger, BackendState>,
                                         k: FlagKind, v: bool, r: Outcome<LoggerError>, visited: set<string>,
                                         b: Logger)
    requires FannedOut(v0, s0, v1, s1, SetFlag(k, v), r, visited) && b in s0
    ensures r.Pass?
    ensures s1[b].flags == s0[b].flags.Set(k, v)
    ensures s1[b].formatter == s0[b].formatter && s1[b].written == s0[b].written
  {
    assert forall b' :: b' in s0 ==> Step(b'.sink, s0[b'], SetFlag(k, v)).outcome.Pass?;
    FanOutForwards(v0, s0, v1, s1, SetFlag(k, v), r, visited, b);
    var n := Count(v0, visited, b);
    RepeatFlags(b.sink, s0[b], SetFlag(k, v), n);
    RepeatRecords(b.sink, s0[b], SetFlag(k, v), n);
    RepeatWritesNothing(b.sink, s0[b], k, v, n);
  }

  lemma SetFlagFanOutPasses(v0: map<string, Logger?>, s0: map<Logger, BackendState>,
                            v1: map<string, Logger?>, s1: map<Logger, BackendState>,
                            k: FlagKind, v: bool, r: Outcome<LoggerError>, visited: set<string>)
    requires FannedOut(v0, s0, v1, s1, SetFlag(k, v), r, visited)
    ensures r == Pass
  {
  }

  lemma {:induction false} RepeatWritesNothing(sink: Sink, s: BackendState, k: FlagKind, v: bool, n: nat)
    ensures Repeat(sink, s, SetFlag(k, v), n).written == s.written
  {
    if n > 0 {
      RepeatWritesNothing(sink, s, k, v, n - 1);
    }
  }

  /** Without a backend in the registry a fan-out does nothing and passes. */
  lemma {:induction false} FanOutWithoutBackends(v0: map<string, Logger?>, s0: map<Logger, BackendState>,
                                                 v1: map<string, Logger?>, s1: map<Logger, BackendState>,
                                                 c: Call, r: Outcome<LoggerError>, visited: set<string>)
    requires FannedOut(v0, s0, v1, s1, c, r, visited)
    requires forall k :: k in v0 ==> v0[k] == null
    ensures r.Pass? && s1 == s0
  {
    assert s1.Keys == {} == s0.Keys;
  }

  /** A backend held only by ids the fan-out did not visit keeps its state. */
  lemma {:induction false} FanOutSkipsUnvisited(v0: map<string, Logger?>, s0: map<Logger, BackendState>,
                                                v1: map<string, Logger?>, s1: map<Logger, BackendState>,
                                                c: Call, r: Outcome<LoggerError>, visited: set<string>, b: Logger)
    requires FannedOut(v0, s0, v1, s1, c, r, visited) && b in s0
    requires forall k :: k in visited && k in v0 ==> v0[k] != b
    ensures s1[b] == s0[b]
  {
    var s := set k' | k' in visited && k' in v0 && v0[k'] == b;
    assert s == {};
  }

  /** A failure ends the fan-out: the failing backend was called exactly once,
      so it was not called again under a later id, its state is that of one
      failed call, and every other backend that was called passed. */
  lemma {:induction false} FanOutStopsAtFailure(v0: map<string, Logger?>, s0: map<Logger, BackendState>,
                                                v1: map<string, Logger?>, s1: map<Logger, BackendState>,
                                                c: Call, r: Outcome<LoggerError>, visited: set<string>)
    requires FannedOut(v0, s0, v1, s1, c, r, visited) && r.Fail?
    ensures exists b :: b in s0 && Count(v0, visited, b) == 1 && r == Step(b.sink, s0[b], c).outcome
                        && s1[b] == Step(b.sink, s0[b], c).state
                        && forall b' :: b' in s0 && b' != b && Count(v0, visited, b') >= 1 ==>
                                        Step(b'.sink, s0[b'], c).outcome.Pass?
  {
    var k :| FailedAt(v0, s0, c, r, visited, k);
    var b := v0[k];
    CountOnly(v0, visited, b, k);
    assert s1[b] == Step(b.sink, s0[b], c).state by {
      assert Repeat(b.sink, s0[b], c, 0) == s0[b];
    }
    forall b' | b' in s0 && b' != b && Count(v0, visited, b') >= 1
      ensures Step(b'.sink, s0[b'], c).outcome.Pass?
    {
      var k' := CountWitness(v0, visited, b');
      assert k' != k;
    }
  }

  /** When `k` is the only id among `keys` whose entry holds `b`, `b` is
      counted once. */
  lemma {:induction false} CountOnly(v0: map<string, Logger?>, keys: set<string>, b: Logger, k: string)
    requires k in keys && k in v0 && v0[k] == b
    requires forall k' :: k' in keys && k' in v0 && v0[k'] == b ==> k' == k
    ensures Count(v0, keys, b) == 1
  {
    var s := set k' | k' in keys && k' in v0 && v0[k'] == b;
    assert s == {k};
  }

  /** A backend that is counted is held by some id among `keys`. */
  lemma {:induction false} CountWitness(v0: map<string, Logger?>, keys: set<string>, b: Logger) returns (k: string)
    requires Count(v0, keys, b) >= 1
    ensures k in keys && k in v0 && v0[k] == b
  {
    var s := set k' | k' in keys && k' in v0 && v0[k'] == b;
    assert |s| >= 1;
    k :| k in s;
  }

  /** The facts a partial fan-out keeps, on values: `cur` holds each backend's
      state after the calls made for the ids in `visited`. */
  ghost predicate Progress(v0: map<string, Logger?>, s0: map<Logger, BackendState>, cur: map<Logger, BackendState>,
                           c: Call, r: Outcome<LoggerError>, visited: set<string>)
  {
    && cur.Keys == s0.Keys
    && (forall b :: b in s0 ==> cur[b] == Repeat(b.sink, s0[b], c, Count(v0, visited, b)))
    && (r.Pass? ==> forall k :: k in visited && k in v0 && v0[k] != null && v0[k] in s0 ==>
                               Step(v0[k].sink, s0[v0[k]], c).outcome.Pass?)
    && (r.Fail? ==> exists k :: FailedAt(v0, s0, c, r, visited, k))
  }

  lemma Begin(v0: map<string, Logger?>, s0: map<Logger, BackendState>, c: Call)
    ensures Progress(v0, s0, s0, c, Pass, {})
  {
    forall b | b in s0
      ensures Count(v0, {}, b) == 0
    {
      CountNone(v0, b);
    }
  }

  /** One step of the loop: visiting id `k` calls the backend it holds, if
      any, once more. */
  lemma Advance(v0: map<string, Logger?>, s0: map<Logger, BackendState>, cur: map<Logger, BackendState>,
                next: map<Logger, BackendState>, c: Call, r: Outcome<LoggerError>, visited: set<string>, k: string)
    requires Progress(v0, s0, cur, c, Pass, visited)
    requires k in v0 && k !in visited
    requires v0[k] == null ==> next == cur && r == Pass
    requires v0[k] != null ==> v0[k] in s0 && next == cur[v0[k] := Step(v0[k].sink, cur[v0[k]], c).state]
                               && r == Step(v0[k].sink, cur[v0[k]], c).outcome
    ensures Progress(v0, s0, next, c, r, visited + {k})
    ensures r.Fail? ==> FailedAt(v0, s0, c, r, visited + {k}, k)
  {
    forall b | b in s0
      ensures Count(v0, visited + {k}, b) == Count(v0, visited, b) + (if v0[k] == b then 1 else 0)
    {
      CountAdd(v0, visited, b, k);
    }
    AdvanceStates(v0, s0, cur, next, c, visited, k);
    if v0[k] != null {
      var b := v0[k];
      RepeatOutcomeStable(b.sink, s0[b], c, Count(v0, visited, b));
      assert r == Step(b.sink, s0[b], c).outcome;
      if r.Fail? {
        assert FailedAt(v0, s0, c, r, visited + {k}, k);
      }
    }
  }

  lemma AdvanceStates(v0: map<string, Logger?>, s0: map<Logger, BackendState>, cur: map<Logger, BackendState>,
                      next: map<Logger, BackendState>, c: Call, visited: set<string>, k: string)
    requires cur.Keys == s0.Keys
    requires forall b :: b in s0 ==> cur[b] == Repeat(b.sink, s0[b], c, Count(v0, visited, b))
    requires k in v0
    requires forall b :: b in s0 ==> Count(v0, visited + {k}, b) == Count(v0, visited, b) + (if v0[k] == b then 1 else 0)
    requires v0[k] == null ==> next == cur
    requires v0[k] != null ==> v0[k] in s0 && next == cur[v0[k] := Step(v0[k].sink, cur[v0[k]], c).state]
    ensures next.Keys == s0.Keys
    ensures forall b :: b in s0 ==> next[b] == Repeat(b.sink, s0[b], c, Count(v0, visited + {k}, b))
  {
    forall b | b in s0
      ensures next[b] == Repeat(b.sink, s0[b], c, Count(v0, visited + {k}, b))
    {
      AdvanceOne(v0, s0, cur, next, c, visited, k, b);
    }
  }

  lemma AdvanceOne(v0: map<string, Logger?>, s0: map<Logger, BackendState>, cur: map<Logger, BackendState>,
                   next: map<Logger, BackendState>, c: Call, visited: set<string>, k: string, b: Logger)
    requires b in s0 && cur.Keys == s0.Keys && k in v0
    requires cur[b] == Repeat(b.sink, s0[b], c, Count(v0, visited, b))
    requires Count(v0, visited + {k}, b) == Count(v0, visited, b) + (if v0[k] == b then 1 else 0)
    requires v0[k] == null ==> next == cur
    requires v0[k] != null ==> v0[k] in s0 && next == cur[v0[k] := Step(v0[k].sink, cur[v0[k]], c).state]
    ensures next[b] == Repeat(b.sink, s0[b], c, Count(v0, visited + {k}, b))
  {
    RepeatOnceMore(b.sink, s0[b], cur[b], next[b], c, Count(v0, visited, b), v0[k] == b);
  }

  lemma RepeatOnceMore(sink: Sink, s: BackendState, cur: BackendState, next: BackendState, c: Call, n: nat, hit: bool)
    requires cur == Repeat(sink, s, c, n)
    requires next == if hit then Step(sink, cur, c).state else cur
    ensures next == Repeat(sink, s, c, n + (if hit then 1 else 0))
  {
  }
}
