/**
  Trimming of trailing whitespace, as the byte-string trim_end the writer
  applies to a commit message: it removes every trailing character with the
  Unicode White_Space property, not only newlines.
 */
module Text {

  /** The characters with the Unicode White_Space property. */
  predicate IsWhitespace(c: char)
  {
    || ('\t' <= c <= '\r')
    || c == ' '
    || c == '\U{0085}'
    || c == '\U{00A0}'
    || c == '\U{1680}'
    || ('\U{2000}' <= c <= '\U{200A}')
    || c == '\U{2028}'
    || c == '\U{2029}'
    || c == '\U{202F}'
    || c == '\U{205F}'
    || c == '\U{3000}'
  }

  /**
    `s` without its trailing whitespace: a prefix of `s`, everything cut off
    is whitespace, and what is left does not end in whitespace.
   */
  function TrimEnd(s: string): (t: string)
    ensures t <= s
    ensures forall k :: |t| <= k < |s| ==> IsWhitespace(s[k])
    ensures t == [] || !IsWhitespace(t[|t| - 1])
  {
    if s != [] && IsWhitespace(s[|s| - 1]) then TrimEnd(s[..|s| - 1]) else s
  }

  /** The three properties of TrimEnd single out its result among all prefixes of `s`. */
  lemma {:induction false} TrimEndUnique(s: string, p: string)
    requires p <= s
    requires forall k :: |p| <= k < |s| ==> IsWhitespace(s[k])
    requires p == [] || !IsWhitespace(p[|p| - 1])
    ensures p == TrimEnd(s)
  {
    var t := TrimEnd(s);
    assert |p| == |t|;
    assert p == s[..|p|] && t == s[..|t|];
  }

  /** Trimming twice trims nothing more. */
  lemma TrimEndIdempotent(s: string)
    ensures TrimEnd(TrimEnd(s)) == TrimEnd(s)
  {
    var t := TrimEnd(s);
    TrimEndUnique(t, t);
  }

  /** A message that does not end in whitespace is stored unchanged. */
  lemma TrimEndKeepsCleanEnd(s: string)
    requires s == [] || !IsWhitespace(s[|s| - 1])
    ensures TrimEnd(s) == s
  {
    TrimEndUnique(s, s);
  }

  /** Any run of trailing newlines, carriage returns, tabs and spaces is removed in full. */
  lemma {:induction false} TrimEndDropsWhitespaceSuffix(s: string, w: string)
    requires forall k :: 0 <= k < |w| ==> IsWhitespace(w[k])
    ensures TrimEnd(s + w) == TrimEnd(s)
  {
    var t := TrimEnd(s);
    assert t <= s + w;
    forall k | |t| <= k < |s + w|
      ensures IsWhitespace((s + w)[k])
    {
      if k >= |s| {
        assert (s + w)[k] == w[k - |s|];
      } else {
        assert (s + w)[k] == s[k];
      }
    }
    TrimEndUnique(s + w, t);
  }
}
