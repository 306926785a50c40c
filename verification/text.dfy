/** Small facts about strings (sequences of characters) used by the messages
    the subscriber writes and throws. */
module Text {

  /** `p` is a prefix of `s`. */
  predicate StartsWith(s: string, p: string)
  {
    |p| <= |s| && s[..|p|] == p
  }

  /** `t` occurs somewhere inside `s`. */
  predicate Contains(s: string, t: string)
  {
    exists i :: 0 <= i <= |s| && StartsWith(s[i..], t)
  }

  /** A string surrounded by arbitrary text still contains it. */
  lemma ContainsInfix(a: string, t: string, b: string)
    ensures Contains(a + t + b, t)
  {
    var s := a + t + b;
    assert s[|a|..] == t + b;
    StartsWithAppend(t, b);
  }

  /** A prefix survives appending more text. */
  lemma StartsWithAppend(p: string, rest: string)
    ensures StartsWith(p + rest, p)
  {
    assert (p + rest)[..|p|] == p;
  }

  /** Text in front does not hide an occurrence. */
  lemma ContainsAfter(p: string, s: string, t: string)
    requires Contains(s, t)
    ensures Contains(p + s, t)
  {
    var i :| 0 <= i <= |s| && StartsWith(s[i..], t);
    assert (p + s)[|p| + i..] == s[i..];
  }
}
