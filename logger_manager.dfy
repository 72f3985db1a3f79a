/** The logger registry: a map from id to an availability entry that holds a
    backend reference and an `IsAvailable` flag. Entries are objects shared by
    reference between the registry and whoever received them from `AddLogger`. */
module Registry {
  import opened Definitions
  import opened Backends

  /** `LoggerAvailability`: two independently settable properties. */
  class LoggerAvailability {
    var logger: Logger?
    var isAvailable: bool

    /** `LoggerAvailability()`. */
    constructor Empty()
      ensures logger == null && !isAvailable
    {
      logger := null;
      isAvailable := false;
    }

    /** `LoggerAvailability(logger)`. */
    constructor Of(logger: Logger?)
      ensures this.logger == logger && isAvailable
    {
      this.logger := logger;
      isAvailable := true;
    }

    /** `LoggerAvailability(logger, isAvailable)`. */
    constructor (logger: Logger?, isAvailable: bool)
      ensures this.logger == logger && this.isAvailable == isAvailable
    {
      this.logger := logger;
      this.isAvailable := isAvailable;
    }

    /** The `Logger` setter. */
    method SetLogger(l: Logger?)
      modifies this
      ensures logger == l && isAvailable == old(isAvailable)
    {
      logger := l;
    }

    /** The `IsAvailable` setter. */
    method SetIsAvailable(v: bool)
      modifies this
      ensures isAvailable == v && logger == old(logger)
    {
      isAvailable := v;
    }
  }

  /** What a predicate over entries sees of an entry. */
  datatype EntryView = EntryView(logger: Logger?, isAvailable: bool)

  /** An entry after its availability is set to `v`, with everything else kept. */
  function WithAvailability(e: EntryView, v: bool): (r: EntryView)
    ensures r.logger == e.logger && r.isAvailable == v
  {
    e.(isAvailable := v)
  }

  /** The entries a predicate keeps: those for which it is false. */
  function Unselected(view: map<string, EntryView>, p: EntryView -> bool): (r: map<string, EntryView>)
    ensures forall k :: k in r <==> k in view && !p(view[k])
    ensures forall k :: k in r ==> r[k] == view[k]
  {
    map k | k in view && !p(view[k]) :: view[k]
  }

  /** The entries a predicate keeps when only those among `keys` are judged:
      a removal walk part way. */
  function UnselectedAmong(view: map<string, EntryView>, p: EntryView -> bool, keys: set<string>)
    : (r: map<string, EntryView>)
    ensures keys == view.Keys ==> r == Unselected(view, p)
    ensures keys == {} ==> r == view
  {
    map k | k in view && !(k in keys && p(view[k])) :: view[k]
  }

  /** Judging one more id removes at most the entry under it. */
  lemma UnselectedAmongStep(view: map<string, EntryView>, p: EntryView -> bool, keys: set<string>, k: string)
    requires k in view && k !in keys
    ensures k in UnselectedAmong(view, p, keys) && UnselectedAmong(view, p, keys)[k] == view[k]
    ensures UnselectedAmong(view, p, keys + {k})
         == if p(view[k]) then UnselectedAmong(view, p, keys) - {k} else UnselectedAmong(view, p, keys)
  {
  }

  /** The entries after the availability of those a predicate selects is set to `v`. */
  function SetSelected(view: map<string, EntryView>, p: EntryView -> bool, v: bool): (r: map<string, EntryView>)
    ensures r.Keys == view.Keys
    ensures forall k :: k in r ==> r[k].logger == view[k].logger
    ensures forall k :: k in r ==> r[k].isAvailable == (if p(view[k]) then v else view[k].isAvailable)
  {
    map k | k in view :: if p(view[k]) then WithAvailability(view[k], v) else view[k]
  }

  /** The entries after the availability of those among `keys` that a
      predicate selects is set to `v`: a walk over the registry part way. */
  function SetSelectedAmong(view: map<string, EntryView>, p: EntryView -> bool, v: bool, keys: set<string>)
    : (r: map<string, EntryView>)
    ensures keys == view.Keys ==> r == SetSelected(view, p, v)
    ensures keys == {} ==> r == view
  {
    map k | k in view :: if k in keys && p(view[k]) then WithAvailability(view[k], v) else view[k]
  }

  /** Visiting one more id changes at most the entry under it. */
  lemma SetSelectedAmongStep(view: map<string, EntryView>, p: EntryView -> bool, v: bool, keys: set<string>,
                             k: string)
    requires k in view && k !in keys
    ensures SetSelectedAmong(view, p, v, keys)[k] == view[k]
    ensures SetSelectedAmong(view, p, v, keys + {k})
         == if p(view[k]) then SetSelectedAmong(view, p, v, keys)[k := WithAvailability(view[k], v)]
            else SetSelectedAmong(view, p, v, keys)
  {
  }

  /** Enabling or disabling the same selection twice is the same as doing it
      once, when the predicate does not look at the availability it changes. */
  lemma SetSelectedIdempotent(view: map<string, EntryView>, p: EntryView -> bool, v: bool)
    requires forall e :: p(e) == p(WithAvailability(e, v))
    ensures SetSelected(SetSelected(view, p, v), p, v) == SetSelected(view, p, v)
  {
  }

  /** `LoggerManager`. */
  class LoggerManager {
    var loggers: map<string, LoggerAvailability>

    /** Every id has an entry of its own: `AddLogger` always creates a new one. */
    ghost predicate Valid()
      reads this
    {
      forall a, b :: a in loggers && b in loggers && a != b ==> loggers[a] != loggers[b]
    }

    /** The registry as a map of values. */
    ghost function Entries(): map<string, EntryView>
      reads this, loggers.Values
    {
      map k | k in loggers :: EntryView(loggers[k].logger, loggers[k].isAvailable)
    }

    constructor ()
      ensures loggers == map[] && Valid()
    {
      loggers := map[];
    }

    /** `AddLogger(id, logger)`: a duplicate id fails first, even for a null
        logger; a null logger is then ignored; otherwise a new available entry
        is inserted and returned. */
    method AddLogger(id: string, logger: Logger?) returns (r: Result<LoggerAvailability?, LoggerError>)
      requires Valid()
      modifies this
      ensures Valid()
      ensures id in old(loggers) ==>
        r == Failure(ExensibleLoggerException(DuplicateKeyText)) && loggers == old(loggers)
      ensures id !in old(loggers) && logger == null ==> r == Success(null) && loggers == old(loggers)
      ensures id !in old(loggers) && logger != null ==>
        r.Success? && r.value != null && fresh(r.value) && loggers == old(loggers)[id := r.value]
        && Entries() == old(Entries())[id := EntryView(logger, true)]
    {
      var added: LoggerAvailability? := null;
      if id in loggers {
        return Failure(ExensibleLoggerException(DuplicateKeyText));
      }
      if logger != null {
        added := new LoggerAvailability(logger, true);
        loggers := loggers[id := added];
      }
      r := Success(added);
    }

    /** `RemoveLogger(id)`: drops that id, if present. */
    method RemoveLogger(id: string)
      requires Valid()
      modifies this
      ensures Valid()
      ensures loggers == old(loggers) - {id}
      ensures Entries() == old(Entries()) - {id}
    {
      if id in loggers {
        loggers := loggers - {id};
      }
    }

    /** `RemoveLoggers(predicate)`: drops exactly the entries the predicate
        selects, visiting the ids from the last to the first; a null predicate
        does nothing. */
    method RemoveLoggers(p: Nullable<EntryView -> bool>)
      requires Valid()
      modifies this
      ensures Valid()
      ensures loggers.Keys <= old(loggers).Keys
      ensures forall k :: k in loggers ==> loggers[k] == old(loggers)[k]
      ensures p.Null? ==> loggers == old(loggers)
      ensures p.Some? ==> Entries() == Unselected(old(Entries()), p.value)
    {
      if p.Some? {
        ghost var v0 := Entries();
        ghost var done: set<string> := {};
        var ks := EnumerateKeys(loggers);
        var i := |ks| - 1;
        while i >= 0
          invariant -1 <= i < |ks|
          invariant forall j :: 0 <= j < |ks| ==> (ks[j] in done <==> i < j)
          invariant done <= v0.Keys
          invariant Valid()
          invariant loggers.Keys <= old(loggers).Keys
          invariant forall k :: k in loggers ==> loggers[k] == old(loggers)[k]
          invariant Entries() == UnselectedAmong(v0, p.value, done)
          decreases i
        {
          var k := ks[i];
          SuffixGrows(ks, done, i);
          UnselectedAmongStep(v0, p.value, done, k);
          assert k in Entries();
          var e := loggers[k];
          if p.value(EntryView(e.logger, e.isAvailable)) {
            RemoveLogger(k);
          }
          done := done + {k};
          i := i - 1;
        }
        assert done == v0.Keys by {
          forall k | k in v0
            ensures k in done
          {
            var j :| 0 <= j < |ks| && ks[j] == k;
          }
        }
      }
    }

    /** `EnableLogger(id)`. */
    method EnableLogger(id: string)
      requires Valid()
      modifies loggers.Values
      ensures Entries() == (if id in old(Entries()) then old(Entries())[id := WithAvailability(old(Entries())[id], true)]
                            else old(Entries()))
    {
      EnableDisableById(id, true);
    }

    /** `EnableLoggers(predicate)`. */
    method EnableLoggers(p: Nullable<EntryView -> bool>)
      requires Valid()
      modifies loggers.Values
      ensures p.Null? ==> Entries() == old(Entries())
      ensures p.Some? ==> Entries() == SetSelected(old(Entries()), p.value, true)
    {
      EnableDisableWhere(p, true);
    }

    /** `DisableLogger(id)`. */
    method DisableLogger(id: string)
      requires Valid()
      modifies loggers.Values
      ensures Entries() == (if id in old(Entries()) then old(Entries())[id := WithAvailability(old(Entries())[id], false)]
                            else old(Entries()))
    {
      EnableDisableById(id, false);
    }

    /** `DisableLoggers(predicate)`. */
    method DisableLoggers(p: Nullable<EntryView -> bool>)
      requires Valid()
      modifies loggers.Values
      ensures p.Null? ==> Entries() == old(Entries())
      ensures p.Some? ==> Entries() == SetSelected(old(Entries()), p.value, false)
    {
      EnableDisableWhere(p, false);
    }

    /** `EnableDisableLogger(id, shouldEnable)`: sets one entry's availability;
        an absent id does nothing. */
    method EnableDisableById(id: string, shouldEnable: bool)
      requires Valid()
      modifies loggers.Values
      ensures Entries() == (if id in old(Entries()) then old(Entries())[id := WithAvailability(old(Entries())[id], shouldEnable)]
                            else old(Entries()))
    {
      if id in loggers {
        SetAvailability(loggers[id], shouldEnable);
      }
    }

    /** `EnableDisableLogger(predicate, shouldEnable)`: sets the availability
        of exactly the entries the predicate selects, each judged by its value
        before the call; a null predicate does nothing. */
    method EnableDisableWhere(p: Nullable<EntryView -> bool>, shouldEnable: bool)
      requires Valid()
      modifies loggers.Values
      ensures p.Null? ==> Entries() == old(Entries())
      ensures p.Some? ==> Entries() == SetSelected(old(Entries()), p.value, shouldEnable)
    {
      if p.Some? {
        ghost var v0 := Entries();
        ghost var done: set<string> := {};
        var ks := EnumerateKeys(loggers);
        var i := 0;
        while i < |ks|
          invariant 0 <= i <= |ks|
          invariant forall j :: 0 <= j < |ks| ==> (ks[j] in done <==> j < i)
          invariant done <= v0.Keys
          invariant Entries() == SetSelectedAmong(v0, p.value, shouldEnable, done)
        {
          var k := ks[i];
          PrefixGrows(ks, done, i);
          var e := loggers[k];
          SetSelectedAmongStep(v0, p.value, shouldEnable, done, k);
          if p.value(EntryView(e.logger, e.isAvailable)) {
            EnableDisableById(k, shouldEnable);
          }
          done := done + {k};
          i := i + 1;
        }
        assert done == v0.Keys by {
          forall k | k in v0
            ensures k in done
          {
            var j :| 0 <= j < |ks| && ks[j] == k;
          }
        }
      }
    }

    /** `EnableDisableLogger(loggerAvailability, shouldEnable)`. */
    static method SetAvailability(e: LoggerAvailability?, shouldEnable: bool)
      modifies e
      ensures e != null ==> e.isAvailable == shouldEnable && e.logger == old(e.logger)
    {
      if e != null {
        e.SetIsAvailable(shouldEnable);
      }
    }
  }
}
