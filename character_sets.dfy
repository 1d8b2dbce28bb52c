/** Foundation's predefined character sets and `trimmingCharacters(in:)`, as far as the
    icon mapper and the hex colour initialiser use them. */
module CharacterSets {

  /** `CharacterSet.whitespaces`: Unicode general category Zs plus the tab character. */
  const Whitespaces: set<char> :=
    {'\t', ' ', '\U{00A0}', '\U{1680}',
     '\U{2000}', '\U{2001}', '\U{2002}', '\U{2003}', '\U{2004}', '\U{2005}',
     '\U{2006}', '\U{2007}', '\U{2008}', '\U{2009}', '\U{200A}',
     '\U{202F}', '\U{205F}', '\U{3000}'}

  /** The line and paragraph separators: U+000A to U+000D, U+0085, U+2028 and U+2029. */
  const Newlines: set<char> :=
    {'\n', '\U{000B}', '\U{000C}', '\r', '\U{0085}', '\U{2028}', '\U{2029}'}

  /** `CharacterSet.whitespacesAndNewlines`. */
  const WhitespacesAndNewlines: set<char> := Whitespaces + Newlines

  predicate AllIn(w: string, cs: set<char>) {
    forall i :: 0 <= i < |w| ==> w[i] in cs
  }

  /** Drops the leading characters that belong to `cs`. */
  function TrimStart(s: string, cs: set<char>): (r: string)
    ensures |r| <= |s| && r == s[|s| - |r|..]
    ensures r == [] || r[0] !in cs
    ensures AllIn(s[..|s| - |r|], cs)
  {
    if |s| > 0 && s[0] in cs then
      var t := s[1..];
      var r := TrimStart(t, cs);
      assert r == t[|t| - |r|..] == s[|s| - |r|..];
      assert AllIn(s[..|s| - |r|], cs) by {
        var dropped := s[..|s| - |r|];
        var rest := t[..|t| - |r|];
        assert rest == dropped[1..];
        forall i | 0 <= i < |dropped| ensures dropped[i] in cs {
          if i > 0 {
            assert dropped[i] == rest[i - 1];
          }
        }
      }
      r
    else s
  }

  /** Drops the trailing characters that belong to `cs`. */
  function TrimEnd(s: string, cs: set<char>): (r: string)
    ensures |r| <= |s| && r == s[..|r|]
    ensures r == [] || r[|r| - 1] !in cs
    ensures AllIn(s[|r|..], cs)
  {
    if |s| > 0 && s[|s| - 1] in cs then
      var t := s[..|s| - 1];
      var r := TrimEnd(t, cs);
      assert r == t[..|r|] == s[..|r|];
      assert AllIn(s[|r|..], cs) by {
        var dropped := s[|r|..];
        var rest := t[|r|..];
        assert rest == dropped[..|dropped| - 1];
        forall i | 0 <= i < |dropped| ensures dropped[i] in cs {
          if i < |rest| {
            assert dropped[i] == rest[i];
          }
        }
      }
      r
    else s
  }

  /** `s.trimmingCharacters(in: cs)`: the longest middle slice of `s` that neither starts
      nor ends with a character of `cs`. */
  function Trim(s: string, cs: set<char>): (r: string)
    ensures |r| <= |s|
    ensures r == [] || (r[0] !in cs && r[|r| - 1] !in cs)
  {
    TrimEnd(TrimStart(s, cs), cs)
  }

  /** The trimmed form is a slice of the string, starting at `i`. */
  lemma TrimIsSlice(s: string, cs: set<char>) returns (i: nat)
    ensures i + |Trim(s, cs)| <= |s| && Trim(s, cs) == s[i..i + |Trim(s, cs)|]
  {
    var t := TrimStart(s, cs);
    var r := TrimEnd(t, cs);
    i := |s| - |t|;
    assert r == t[..|r|] && t == s[i..];
    forall k | 0 <= k < |r| ensures r[k] == s[i + k] {
      assert r[k] == t[k];
    }
  }

  lemma {:induction false} TrimStartPrefix(w: string, s: string, cs: set<char>)
    requires AllIn(w, cs)
    ensures TrimStart(w + s, cs) == TrimStart(s, cs)
  {
    if w != [] {
      assert (w + s)[0] == w[0] && (w + s)[1..] == w[1..] + s;
      TrimStartPrefix(w[1..], s, cs);
    } else {
      assert w + s == s;
    }
  }

  lemma {:induction false} TrimEndSuffix(s: string, w: string, cs: set<char>)
    requires AllIn(w, cs)
    ensures TrimEnd(s + w, cs) == TrimEnd(s, cs)
  {
    if w != [] {
      var n := |w| - 1;
      assert (s + w)[|s + w| - 1] == w[n] && (s + w)[..|s + w| - 1] == s + w[..n];
      TrimEndSuffix(s, w[..n], cs);
    } else {
      assert s + w == s;
    }
  }

  lemma {:induction false} TrimAppendSuffix(s: string, w: string, cs: set<char>)
    requires AllIn(w, cs)
    ensures Trim(s + w, cs) == Trim(s, cs)
  {
    if s == [] {
      assert s + w == w;
      TrimStartPrefix(w, [], cs);
    } else if s[0] in cs {
      assert (s + w)[1..] == s[1..] + w;
      TrimAppendSuffix(s[1..], w, cs);
    } else {
      assert (s + w)[0] == s[0];
      TrimEndSuffix(s, w, cs);
    }
  }

  /** Characters of `cs` around a string do not change its trimmed form. */
  lemma TrimIgnoresPadding(w1: string, s: string, w2: string, cs: set<char>)
    requires AllIn(w1, cs) && AllIn(w2, cs)
    ensures Trim(w1 + s + w2, cs) == Trim(s, cs)
  {
    var t := w1 + s + w2;
    assert t == w1 + (s + w2);
    TrimStartPrefix(w1, s + w2, cs);
    assert Trim(t, cs) == Trim(s + w2, cs);
    TrimAppendSuffix(s, w2, cs);
  }

  /** A string that neither starts nor ends with a character of `cs` is left as it is. */
  lemma TrimKeepsClean(s: string, cs: set<char>)
    requires s == [] || (s[0] !in cs && s[|s| - 1] !in cs)
    ensures Trim(s, cs) == s
  {
  }
}
