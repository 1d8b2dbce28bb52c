/** `IconMapper.getSymbolName(for:)`: picks an SF Symbol for a folder title by a fixed
    keyword table, ignoring letter case and surrounding spaces. */
module IconMapper {
  import opened CharacterSets

  /** `Character.lowercased()` on the ASCII letters; every other character is kept. */
  function LowerChar(c: char): char {
    if 'A' <= c <= 'Z' then (c as int + 32) as char else c
  }

  /** `String.lowercased()`, character by character. */
  function LowerCase(s: string): string {
    seq(|s|, i requires 0 <= i < |s| => LowerChar(s[i]))
  }

  /** The title as the lookup sees it: lower-cased, then trimmed of `.whitespaces`. */
  function Normalize(title: string): (r: string)
    ensures |r| <= |title|
    ensures r == [] || (r[0] !in Whitespaces && r[|r| - 1] !in Whitespaces)
  {
    Trim(LowerCase(title), Whitespaces)
  }

  /** The fallback symbol for a title with no entry in the table. */
  const DefaultSymbol: string := "folder.fill"

  /** The keyword table. */
  const Mapping: map<string, string> := map[
    "gym" := "figure.cross.training",
    "fitness" := "heart",
    "cooking" := "fork.knife",
    "food" := "cart",
    "music" := "music.note",
    "ideas" := "lightbulb",
    "shopping" := "bag",
    "home" := "house",
    "car" := "car",
    "money" := "dollarsign.circle",
    "book" := "book",
    "coding" := "command"
  ]

  /** The symbol for a folder title; total, and always a table symbol or the fallback. */
  function GetSymbolName(title: string): (r: string)
    ensures r == DefaultSymbol || r in Mapping.Values
    ensures Normalize(title) !in Mapping ==> r == DefaultSymbol
  {
    var key := Normalize(title);
    if key in Mapping then Mapping[key] else DefaultSymbol
  }

  lemma LowerCaseIdempotent(s: string)
    ensures LowerCase(LowerCase(s)) == LowerCase(s)
  {
  }

  lemma LowerCaseAppend(a: string, b: string)
    ensures LowerCase(a + b) == LowerCase(a) + LowerCase(b)
  {
  }

  /** No character of `.whitespaces` is an upper-case letter. */
  lemma LowerCaseKeepsSpaces(w: string)
    requires AllIn(w, Whitespaces)
    ensures LowerCase(w) == w
  {
    forall i | 0 <= i < |w| ensures LowerCase(w)[i] == w[i] {
      assert w[i] in Whitespaces;
    }
  }

  /** The trimmed form neither starts nor ends with a character of the set. */
  lemma TrimIsClean(s: string, cs: set<char>)
    ensures var r := Trim(s, cs); r == [] || (r[0] !in cs && r[|r| - 1] !in cs)
  {
    var t := TrimStart(s, cs);
    var r := TrimEnd(t, cs);
    if r != [] {
      assert r[0] == t[0];
    }
  }

  /** No character of `s` is an upper-case ASCII letter. */
  predicate NoCapitals(s: string) {
    forall i :: 0 <= i < |s| ==> !('A' <= s[i] <= 'Z')
  }

  /** A lower-cased string holds no upper-case letter. */
  lemma LowerCaseHasNoCapitals(s: string)
    ensures NoCapitals(LowerCase(s))
  {
  }

  /** A slice of a string without capitals is its own lower-case form. */
  lemma SliceOfNoCapitalsIsLower(s: string, n: string, i: nat)
    requires NoCapitals(s) && i + |n| <= |s| && n == s[i..i + |n|]
    ensures LowerCase(n) == n
  {
    forall k | 0 <= k < |n| ensures !('A' <= n[k] <= 'Z') {
      assert n[k] == s[i + k];
    }
    NoCapitalsKept(n);
  }

  /** Trimming a string without capitals leaves a string that is its own lower-case form. */
  lemma TrimOfNoCapitalsIsLower(s: string, cs: set<char>)
    requires NoCapitals(s)
    ensures LowerCase(Trim(s, cs)) == Trim(s, cs)
  {
    var i := TrimIsSlice(s, cs);
    SliceOfNoCapitalsIsLower(s, Trim(s, cs), i);
  }

  /** The trimmed form of a lower-cased string is still lower-cased. */
  lemma TrimOfLowerIsLower(title: string)
    ensures LowerCase(Normalize(title)) == Normalize(title)
  {
    LowerCaseHasNoCapitals(title);
    TrimOfNoCapitalsIsLower(LowerCase(title), Whitespaces);
  }

  /** Normalising is idempotent. */
  lemma NormalizeIdempotent(title: string)
    ensures Normalize(Normalize(title)) == Normalize(title)
  {
    TrimOfLowerIsLower(title);
    TrimIsClean(LowerCase(title), Whitespaces);
    TrimKeepsClean(Normalize(title), Whitespaces);
  }

  /** Letter case never matters: a title and its lower-cased form get the same symbol. */
  lemma IgnoresCase(title: string)
    ensures GetSymbolName(title) == GetSymbolName(LowerCase(title))
  {
    LowerCaseIdempotent(title);
  }

  /** Normalising before the call changes nothing. */
  lemma NormalizingFirstChangesNothing(title: string)
    ensures GetSymbolName(title) == GetSymbolName(Trim(LowerCase(title), Whitespaces))
  {
    NormalizeIdempotent(title);
  }

  /** Leading and trailing spaces and tabs are ignored. */
  lemma IgnoresSurroundingSpaces(w1: string, title: string, w2: string)
    requires AllIn(w1, Whitespaces) && AllIn(w2, Whitespaces)
    ensures GetSymbolName(w1 + title + w2) == GetSymbolName(title)
  {
    LowerCaseAppend(w1 + title, w2);
    LowerCaseAppend(w1, title);
    LowerCaseKeepsSpaces(w1);
    LowerCaseKeepsSpaces(w2);
    TrimIgnoresPadding(w1, LowerCase(title), w2, Whitespaces);
  }

  /** A non-empty run of lower-case ASCII letters. */
  predicate LowerWord(k: string) {
    |k| > 0 && forall i :: 0 <= i < |k| ==> 'a' <= k[i] <= 'z'
  }

  /** Every key of the table is a lower-case word. */
  lemma KeysAreLowerWords()
    ensures forall k :: k in Mapping ==> LowerWord(k)
  {
  }

  /** A string without upper-case ASCII letters is its own lower-case form. */
  lemma NoCapitalsKept(s: string)
    requires NoCapitals(s)
    ensures LowerCase(s) == s
  {
  }

  /** A lower-case word is normalised already. */
  lemma LowerWordIsNormal(k: string)
    requires LowerWord(k)
    ensures Normalize(k) == k
  {
    NoCapitalsKept(k);
    assert k[0] !in Whitespaces && k[|k| - 1] !in Whitespaces;
    TrimKeepsClean(k, Whitespaces);
  }

  /** A key is normalised already, so it finds its own entry. */
  lemma KeyFindsItself(k: string)
    requires k in Mapping
    ensures GetSymbolName(k) == Mapping[k]
  {
    KeysAreLowerWords();
    LowerWordIsNormal(k);
  }

  /** No key ends with a newline. */
  lemma NoKeyEndsWithNewline(k: string)
    requires k in Mapping
    ensures k + "\n" !in Mapping
  {
    var s := k + "\n";
    KeysAreLowerWords();
    assert s[|s| - 1] == '\n';
  }

  /** A trailing newline survives normalisation of a lower-case word. */
  lemma NewlineSurvivesNormalize(k: string)
    requires LowerWord(k)
    ensures Normalize(k + "\n") == k + "\n"
  {
    var s := k + "\n";
    forall i | 0 <= i < |s| ensures !('A' <= s[i] <= 'Z') {
      if i < |k| {
        assert s[i] == k[i];
      }
    }
    NoCapitalsKept(s);
    assert s[0] == k[0] && s[|s| - 1] == '\n';
    TrimKeepsClean(s, Whitespaces);
  }

  /** Newlines are not in `.whitespaces`: a key followed by a newline is not found. */
  lemma NewlineIsNotTrimmed(k: string)
    requires k in Mapping
    ensures GetSymbolName(k) == Mapping[k]
    ensures GetSymbolName(k + "\n") == DefaultSymbol
  {
    KeyFindsItself(k);
    KeysAreLowerWords();
    NewlineSurvivesNormalize(k);
    NoKeyEndsWithNewline(k);
  }

  /** Each of the twelve keys maps to its own symbol. */
  lemma KeyTable()
    ensures forall k :: k in Mapping ==> GetSymbolName(k) == Mapping[k]
  {
    forall k | k in Mapping ensures GetSymbolName(k) == Mapping[k] {
      KeyFindsItself(k);
    }
  }
}
