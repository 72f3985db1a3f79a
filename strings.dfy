/** The two .NET string operations the formatters rely on. */
module Strings {
  import opened Definitions

  /** `string.IsNullOrEmpty(s) ? string.Empty : s`: null and the empty string
      both become the empty string, every other string is kept. */
  function Normalize(s: Nullable<string>): (r: string)
    ensures s.Null? ==> r == ""
    ensures s.Some? ==> r == s.value
  {
    match s
    case Null => ""
    case Some(t) => if |t| == 0 then "" else t
  }

  /** `s.TrimEnd('.')`: removes every trailing dot and nothing else. */
  function TrimEndDots(s: string): (r: string)
    ensures |r| <= |s| && r == s[..|r|]
    ensures |r| == 0 || r[|r| - 1] != '.'
    ensures forall i :: |r| <= i < |s| ==> s[i] == '.'
    decreases |s|
  {
    if |s| > 0 && s[|s| - 1] == '.' then TrimEndDots(s[..|s| - 1]) else s
  }

  /** Trimming is idempotent. */
  lemma TrimEndDotsIdempotent(s: string)
    ensures TrimEndDots(TrimEndDots(s)) == TrimEndDots(s)
  {
  }

  /** A string with no trailing dot is left alone, and any number of dots
      added to it are all removed again. */
  lemma {:induction false} TrimEndDotsRemovesAddedDots(s: string, n: nat)
    requires |s| == 0 || s[|s| - 1] != '.'
    ensures TrimEndDots(s + seq(n, _ => '.')) == s
  {
    if n > 0 {
      var t := s + seq(n, _ => '.');
      assert t[..|t| - 1] == s + seq(n - 1, _ => '.');
      TrimEndDotsRemovesAddedDots(s, n - 1);
    } else {
      assert s + seq(0, _ => '.') == s;
    }
  }
}
