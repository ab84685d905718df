/** Python's ordering of strings, which `sorted` uses for weights stored as
    text, and a real-valued rank that preserves it. */
module PyCompare {

  /** Python's `s < t` on strings: the first differing code point decides,
      and a proper prefix comes first. */
  predicate StrLess(s: string, t: string)
    decreases |t|
  {
    t != [] && (s == [] || s[0] < t[0] || (s[0] == t[0] && StrLess(s[1..], t[1..])))
  }

  /** One more than the number of Unicode code points. */
  const CodeBase: real := 1114113.0

  /** A real number that orders strings as `StrLess` does: the code points,
      each shifted up by one, read as the digits of a fraction in base
      `CodeBase`. */
  function StrRank(s: string): (r: real)
    ensures 0.0 <= r < 1.0
    ensures s != [] ==> (s[0] as int + 1) as real / CodeBase <= r < (s[0] as int + 2) as real / CodeBase
  {
    if s == [] then 0.0 else ((s[0] as int + 1) as real + StrRank(s[1..])) / CodeBase
  }

  /** Python orders any two different strings one way or the other. */
  lemma {:induction false} StrLessTotal(s: string, t: string)
    ensures s == t || StrLess(s, t) || StrLess(t, s)
    decreases |t|
  {
    if s != [] && t != [] && s[0] == t[0] {
      StrLessTotal(s[1..], t[1..]);
      if s[1..] == t[1..] {
        assert s == [s[0]] + s[1..] && t == [t[0]] + t[1..];
      }
    }
  }

  lemma {:induction false} StrRankMonotone(s: string, t: string)
    requires StrLess(s, t)
    ensures StrRank(s) < StrRank(t)
    decreases |t|
  {
    if s != [] && s[0] == t[0] {
      StrRankMonotone(s[1..], t[1..]);
    }
  }

  /** `StrRank` is an order embedding of Python's string order: comparing
      ranks is comparing the strings, and equal ranks mean equal strings. */
  lemma {:induction false} StrRankOrder(s: string, t: string)
    ensures StrLess(s, t) <==> StrRank(s) < StrRank(t)
    ensures StrRank(s) == StrRank(t) <==> s == t
  {
    StrLessTotal(s, t);
    if StrLess(s, t) {
      StrRankMonotone(s, t);
    } else if StrLess(t, s) {
      StrRankMonotone(t, s);
    }
  }
}
