/** The `name=value` list both formatters build for a method-start message:
    a `for` loop over the names that appends `", "` before every pair but the
    first, reads the value at the same index, and stops with an
    index-out-of-range fault, which the formatter swallows, when there are
    fewer values than names. */
module ParameterList {
  import opened Definitions

  /** How a value prints: a null value prints as `null`. */
  function Render(v: Value): string {
    match v
    case Null => "null"
    case Some(s) => s
  }

  function PairText(name: string, v: Value): string {
    name + "=" + Render(v)
  }

  /** The first `n` pairs joined by `", "`. */
  function Pairs(names: seq<string>, values: seq<Value>, n: nat): string
    requires n <= |names| && n <= |values|
  {
    if n == 0 then ""
    else Pairs(names, values, n - 1) + (if n > 1 then ", " else "") + PairText(names[n - 1], values[n - 1])
  }

  /** The loop ran to the end: there is a value for every name. */
  predicate Completes(names: seq<string>, values: seq<Value>) {
    |names| <= |values|
  }

  /** The text the loop has appended when it stops, normally or at the fault. */
  function ListText(names: seq<string>, values: seq<Value>): string {
    if Completes(names, values) then Pairs(names, values, |names|)
    else Pairs(names, values, |values|) + (if |values| > 0 then ", " else "")
  }

  /** The pairs depend only on the names and values they print: values past
      the names are never read. */
  lemma {:induction false} PairsReadOnlyPrefix(names: seq<string>, values: seq<Value>, values': seq<Value>, n: nat)
    requires n <= |names| && n <= |values| && n <= |values'|
    requires values[..n] == values'[..n]
    ensures Pairs(names, values, n) == Pairs(names, values', n)
  {
    if n > 0 {
      assert values[n - 1] == values[..n][n - 1] == values'[..n][n - 1] == values'[n - 1];
      assert values[..n - 1] == values'[..n - 1] by {
        assert values[..n - 1] == values[..n][..n - 1];
        assert values'[..n - 1] == values'[..n][..n - 1];
      }
      PairsReadOnlyPrefix(names, values, values', n - 1);
    }
  }

  /** Extra values are ignored. */
  lemma ExtraValuesIgnored(names: seq<string>, values: seq<Value>)
    requires Completes(names, values)
    ensures ListText(names, values) == ListText(names, values[..|names|])
  {
    PairsReadOnlyPrefix(names, values, values[..|names|], |names|);
  }

  /** The pairs of `n` names start with the pairs of fewer names. */
  lemma {:induction false} PairsExtend(names: seq<string>, values: seq<Value>, m: nat, n: nat)
    requires m <= n <= |names| && n <= |values|
    ensures Pairs(names, values, m) <= Pairs(names, values, n)
    decreases n
  {
    if m < n {
      PairsExtend(names, values, m, n - 1);
    }
  }

  /** When the fault cuts the loop short, the text built so far is kept: it is
      a prefix of the text a full set of values would have produced, and it
      ends with the `", "` separator once at least one pair was written. */
  lemma PartialListIsPrefix(names: seq<string>, values: seq<Value>, more: seq<Value>)
    requires !Completes(names, values)
    requires |values| + |more| >= |names|
    ensures ListText(names, values) <= ListText(names, values + more)
    ensures |values| > 0 ==> ListText(names, values)[|ListText(names, values)| - 2..] == ", "
  {
    var all := values + more;
    assert all[..|values|] == values[..|values|];
    PairsReadOnlyPrefix(names, values, all, |values|);
    PairsExtend(names, all, |values|, |values| + 1);
    PairsExtend(names, all, |values| + 1, |names|);
    if |values| > 0 {
      var p := Pairs(names, all, |values|);
      assert Pairs(names, all, |values| + 1) == p + ", " + PairText(names[|values|], all[|values|]);
    }
  }

  /** The loop of `GetMethodStartMessage`: appends the parameter list to
      `prefix` and reports whether it ran to the end. */
  method AppendParameters(prefix: string, names: seq<string>, values: seq<Value>)
    returns (text: string, completed: bool)
    ensures completed == Completes(names, values)
    ensures text == prefix + ListText(names, values)
  {
    text := prefix;
    completed := true;
    var i := 0;
    while i < |names|
      invariant 0 <= i <= |names| && i <= |values|
      invariant text == prefix + Pairs(names, values, i)
    {
      if i > 0 {
        text := text + ", ";
      }
      if i >= |values| {
        // parametersValues[i] is out of range: the fault ends the loop
        completed := false;
        return;
      }
      text := text + PairText(names[i], values[i]);
      i := i + 1;
    }
  }
}
