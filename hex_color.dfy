/** `UIColor(hex:alpha:)`: a colour from a six-digit hexadecimal string such as "#36373F",
    falling back to black. Channels are kept as the integers 0..255 that the initialiser
    divides by 255. */
module HexColor {
  import opened Options
  import opened CharacterSets

  /** The colour the initialiser builds; `init(white: 0.0, alpha:)` is `Rgb(0, 0, 0, alpha)`. */
  datatype Color = Rgb(red: int, green: int, blue: int, alpha: real)

  predicate IsHexDigit(c: char) {
    '0' <= c <= '9' || 'a' <= c <= 'f' || 'A' <= c <= 'F'
  }

  function DigitValue(c: char): (d: nat)
    requires IsHexDigit(c)
    ensures d < 16
  {
    if '0' <= c <= '9' then c as int - '0' as int
    else if 'a' <= c <= 'f' then c as int - 'a' as int + 10
    else c as int - 'A' as int + 10
  }

  /** The value of a string of hex digits, most significant first. */
  function DigitsValue(s: string): (v: nat)
    requires forall i :: 0 <= i < |s| ==> IsHexDigit(s[i])
  {
    if s == [] then 0
    else DigitsValue(s[..|s| - 1]) * 16 + DigitValue(s[|s| - 1])
  }

  predicate AllHexDigits(s: string) {
    forall i :: 0 <= i < |s| ==> IsHexDigit(s[i])
  }

  /** Swift's `Int(s, radix: 16)`: an optional '+' or '-' sign followed by one or more hex
      digits of either case; anything else is `nil`. */
  function ParseInt16(s: string): (r: Option<int>)
    ensures r.Some? <==> (|s| > 0 && (if s[0] == '+' || s[0] == '-' then |s| > 1 && AllHexDigits(s[1..]) else AllHexDigits(s)))
    ensures r.Some? && AllHexDigits(s) ==> r.value == DigitsValue(s)
    ensures r.Some? && (s[0] == '+' || s[0] == '-') ==>
      r.value == (if s[0] == '-' then -(DigitsValue(s[1..]) as int) else DigitsValue(s[1..]))
  {
    if s == [] then None
    else if s[0] == '+' || s[0] == '-' then
      var digits := s[1..];
      if digits != [] && AllHexDigits(digits) then
        var magnitude: int := DigitsValue(digits);
        Some(if s[0] == '-' then -magnitude else magnitude)
      else None
    else if AllHexDigits(s) then Some(DigitsValue(s))
    else None
  }

  /** `replacingOccurrences(of: "#", with: "")`. */
  function RemoveHashes(s: string): (r: string)
    ensures '#' !in r
    ensures |r| <= |s|
  {
    if s == [] then []
    else (if s[0] == '#' then [] else [s[0]]) + RemoveHashes(s[1..])
  }

  /** `(v >> k) & 0xFF` on a two's-complement `Int`: the arithmetic shift is floor
      division by 2^k and the mask keeps the non-negative residue mod 256, which are
      Dafny's Euclidean `/` and `%` for a positive divisor. */
  function ByteAt(v: int, shift: nat): (b: int)
    ensures 0 <= b < 256
  {
    (v / Pow2(shift)) % 256
  }

  function Pow2(k: nat): (p: nat)
    ensures p >= 1
  {
    if k == 0 then 1 else 2 * Pow2(k - 1)
  }

  /** The cleaned string the guard inspects: trimmed of whitespace and newlines, then
      stripped of every '#'. */
  function Clean(hex: string): (r: string)
    ensures '#' !in r
    ensures |r| <= |hex|
  {
    RemoveHashes(Trim(hex, WhitespacesAndNewlines))
  }

  /** `UIColor(hex: hex, alpha: alpha)`; alpha defaults to 1.0 as in the source. */
  function FromHex(hex: string, alpha: real := 1.0): (c: Color)
    ensures c.alpha == alpha
    ensures 0 <= c.red < 256 && 0 <= c.green < 256 && 0 <= c.blue < 256
    ensures |Clean(hex)| != 6 || ParseInt16(Clean(hex)).None? ==> c == Rgb(0, 0, 0, alpha)
    ensures |Clean(hex)| == 6 && ParseInt16(Clean(hex)).Some? ==>
      var v := ParseInt16(Clean(hex)).value;
      c.red == (v / 0x1_0000) % 256 && c.green == (v / 0x100) % 256 && c.blue == v % 256
  {
    var s := Clean(hex);
    if |s| == 6 && ParseInt16(s).Some? then
      var v := ParseInt16(s).value;
      Powers();
      Rgb(ByteAt(v, 16), ByteAt(v, 8), ByteAt(v, 0), alpha)
    else
      Rgb(0, 0, 0, alpha)
  }

  /* ---- Encoding side, the partner of the parser ---- */

  function HexChar(d: nat): (c: char)
    requires d < 16
    ensures IsHexDigit(c) && DigitValue(c) == d
  {
    if d < 10 then ('0' as int + d) as char else ('A' as int + d - 10) as char
  }

  /** `n` upper-case hex digits of `v`, most significant first (`String(format: "%0nX")`). */
  function ToHex(v: nat, n: nat): (s: string)
    ensures |s| == n && AllHexDigits(s)
  {
    if n == 0 then [] else ToHex(v / 16, n - 1) + [HexChar(v % 16)]
  }

  function Pow16(n: nat): (p: nat)
    ensures p >= 1
  {
    if n == 0 then 1 else 16 * Pow16(n - 1)
  }

  /** Parsing the digits written by `ToHex` gives the value back. */
  lemma {:induction false} DigitsRoundTrip(v: nat, n: nat)
    requires v < Pow16(n)
    ensures DigitsValue(ToHex(v, n)) == v
  {
    if n > 0 {
      var s := ToHex(v, n);
      assert s[..|s| - 1] == ToHex(v / 16, n - 1);
      DigitsRoundTrip(v / 16, n - 1);
    }
  }

  lemma Powers()
    ensures Pow2(16) == 0x1_0000 && Pow2(8) == 0x100 && Pow2(0) == 1 && Pow16(6) == 0x100_0000
  {
  }

  /** Neither a hex digit nor a sign nor '#' is whitespace. */
  lemma NotWhitespace(c: char)
    requires IsHexDigit(c) || c == '+' || c == '-' || c == '#'
    ensures c !in WhitespacesAndNewlines
  {
  }

  /** A string of hex digits, a sign or '#' at its ends and no '#' after the first
      character is cleaned to itself minus that first '#'. */
  lemma CleanOfTidy(s: string)
    requires s != [] && AllHexDigits(s[1..])
    requires IsHexDigit(s[0]) || s[0] == '+' || s[0] == '-' || s[0] == '#'
    ensures Clean(s) == if s[0] == '#' then s[1..] else s
  {
    var tail := s[1..];
    assert '#' !in tail by {
      forall i | 0 <= i < |tail| ensures tail[i] != '#' {
        assert IsHexDigit(tail[i]);
      }
    }
    calc {
      Clean(s);
      { TidyIsTrimmed(s); }
      RemoveHashes(s);
      { assert s == [s[0]] + tail; RemoveHashesAppend([s[0]], tail); }
      RemoveHashes([s[0]]) + RemoveHashes(tail);
      { NoHashesKept(tail); RemoveHashesOne(s[0]); }
      (if s[0] == '#' then [] else [s[0]]) + tail;
    }
  }

  lemma RemoveHashesOne(c: char)
    ensures RemoveHashes([c]) == if c == '#' then [] else [c]
  {
    assert [c][1..] == [];
  }

  /** Such a string has nothing to trim. */
  lemma TidyIsTrimmed(s: string)
    requires s != [] && AllHexDigits(s[1..])
    requires IsHexDigit(s[0]) || s[0] == '+' || s[0] == '-' || s[0] == '#'
    ensures Trim(s, WhitespacesAndNewlines) == s
  {
    NotWhitespace(s[0]);
    if |s| > 1 {
      assert s[|s| - 1] == s[1..][|s| - 2];
    }
    NotWhitespace(s[|s| - 1]);
    TrimKeepsClean(s, WhitespacesAndNewlines);
  }

  /** The three bytes of a 24-bit value. */
  lemma BytesOf24(v: nat)
    requires v < 0x100_0000
    ensures ByteAt(v, 16) == v / 0x1_0000 && ByteAt(v, 8) == (v / 0x100) % 0x100
    ensures ByteAt(v, 0) == v % 0x100
  {
    Powers();
  }

  /** Writing a 24-bit value as six hex digits, with or without a leading '#', and reading
      it back yields its three bytes and the given alpha. */
  lemma SixDigitRoundTrip(v: nat, alpha: real, withHash: bool)
    requires v < 0x100_0000
    ensures var hex := (if withHash then "#" else "") + ToHex(v, 6);
      FromHex(hex, alpha) == Rgb(v / 0x1_0000, (v / 0x100) % 0x100, v % 0x100, alpha)
  {
    var digits := ToHex(v, 6);
    CleanOfSix(v, withHash);
    SixDigitsParse(v);
    BytesOf24(v);
  }

  /** Six digits, with or without a leading '#', are cleaned to the six digits. */
  lemma CleanOfSix(v: nat, withHash: bool)
    ensures Clean((if withHash then "#" else "") + ToHex(v, 6)) == ToHex(v, 6)
  {
    var digits := ToHex(v, 6);
    var hex := (if withHash then "#" else "") + digits;
    if withHash {
      assert hex[0] == '#' && hex[1..] == digits;
    } else {
      assert hex == digits && hex[1..] == digits[1..];
    }
    CleanOfTidy(hex);
  }

  /** Six digits written by `ToHex` parse back to the value. */
  lemma SixDigitsParse(v: nat)
    requires v < 0x100_0000
    ensures ParseInt16(ToHex(v, 6)) == Some(v)
  {
    var digits := ToHex(v, 6);
    Powers();
    DigitsRoundTrip(v, 6);
    assert digits[0] != '+' && digits[0] != '-' by {
      assert IsHexDigit(digits[0]);
    }
  }

  /** A string without '#' is left as it is. */
  lemma {:induction false} NoHashesKept(s: string)
    requires '#' !in s
    ensures RemoveHashes(s) == s
  {
    if s != [] {
      assert s[0] != '#';
      NoHashesKept(s[1..]);
    }
  }

  /** Removing '#' works piece by piece, so it removes every occurrence wherever it is
      and keeps the other characters in order. */
  lemma {:induction false} RemoveHashesAppend(a: string, b: string)
    ensures RemoveHashes(a + b) == RemoveHashes(a) + RemoveHashes(b)
  {
    if a == [] {
      assert a + b == b;
    } else {
      assert (a + b)[0] == a[0] && (a + b)[1..] == a[1..] + b;
      RemoveHashesAppend(a[1..], b);
    }
  }

  /** A leading '#' does not change the colour of a string that does not start with
      whitespace: "#36373F" and "36373F" are the same colour. */
  lemma LeadingHashIgnored(s: string, alpha: real)
    requires s == [] || s[0] !in WhitespacesAndNewlines
    ensures FromHex("#" + s, alpha) == FromHex(s, alpha)
  {
    LeadingHashCleaned(s);
  }

  lemma LeadingHashCleaned(s: string)
    requires s == [] || s[0] !in WhitespacesAndNewlines
    ensures Clean("#" + s) == Clean(s)
  {
    var h := "#" + s;
    NotWhitespace('#');
    assert h[0] == '#' && h[1..] == s;
    assert TrimStart(h, WhitespacesAndNewlines) == h;
    if s == [] {
      assert h == "#";
      assert Trim(h, WhitespacesAndNewlines) == h;
      assert RemoveHashes(h) == [];
    } else {
      assert TrimStart(s, WhitespacesAndNewlines) == s;
      TrimEndUnderPrefix("#", s, WhitespacesAndNewlines);
      RemoveHashesAppend("#", TrimEnd(s, WhitespacesAndNewlines));
      assert RemoveHashes("#") == [];
    }
  }

  /** Trimming the end of `p + s` trims only inside `s` when `s` does not end up empty. */
  lemma {:induction false} TrimEndUnderPrefix(p: string, s: string, cs: set<char>)
    requires s != [] && s[0] !in cs
    ensures TrimEnd(p + s, cs) == p + TrimEnd(s, cs)
  {
    var ps := p + s;
    assert ps[|ps| - 1] == s[|s| - 1];
    if s[|s| - 1] in cs {
      assert |s| > 1;
      assert ps[..|ps| - 1] == p + s[..|s| - 1];
      TrimEndUnderPrefix(p, s[..|s| - 1], cs);
    }
  }

  /** Whitespace and newlines around the string are ignored. */
  lemma SurroundingWhitespaceIgnored(w1: string, hex: string, w2: string, alpha: real)
    requires AllIn(w1, WhitespacesAndNewlines) && AllIn(w2, WhitespacesAndNewlines)
    ensures FromHex(w1 + hex + w2, alpha) == FromHex(hex, alpha)
  {
    TrimIgnoresPadding(w1, hex, w2, WhitespacesAndNewlines);
  }

  /** Swift's parser accepts a sign, so a '-' and five hex digits pass the guard. The
      value is negative and its two's-complement bytes are what the colour shows: "-00001"
      is -1, all of whose bytes are 0xFF, so it gives white rather than the black fallback. */
  lemma SignedInputParses(alpha: real)
    ensures ParseInt16("-" + ToHex(1, 5)) == Some(-1)
    ensures FromHex("-" + ToHex(1, 5), alpha) == Rgb(255, 255, 255, alpha)
  {
    var s := "-" + ToHex(1, 5);
    MinusOneParses();
    assert s[0] == '-' && s[1..] == ToHex(1, 5);
    CleanOfTidy(s);
    AllBytesOfMinusOne();
  }

  lemma MinusOneParses()
    ensures ParseInt16("-" + ToHex(1, 5)) == Some(-1)
  {
    var digits := ToHex(1, 5);
    var s := "-" + digits;
    assert Pow16(5) == 0x10_0000;
    DigitsRoundTrip(1, 5);
    assert s[0] == '-' && s[1..] == digits;
  }

  /** Without an alpha argument the colour is opaque. */
  lemma AlphaDefaultsToOpaque(hex: string)
    ensures FromHex(hex).alpha == 1.0
  {
  }

  lemma AllBytesOfMinusOne()
    ensures ByteAt(-1, 16) == 255 && ByteAt(-1, 8) == 255 && ByteAt(-1, 0) == 255
  {
    Powers();
  }

  /* ---- The guard as documented: six hex digits, no sign ---- */

  /** A string of `n` hex digits stands for a value below 16^n. */
  lemma {:induction false} DigitsBound(s: string)
    requires AllHexDigits(s)
    ensures DigitsValue(s) < Pow16(|s|)
  {
    if s != [] {
      var init := s[..|s| - 1];
      assert AllHexDigits(init);
      DigitsBound(init);
    }
  }

  /** On six unsigned digits the two parsers agree, and the bytes are the 24-bit ones. */
  lemma SixDigitsAgree(s: string)
    requires |s| == 6 && AllHexDigits(s)
    ensures DigitsValue(s) < 0x100_0000 && ParseInt16(s) == Some(DigitsValue(s))
    ensures var v := DigitsValue(s);
      ByteAt(v, 16) == v / 0x1_0000 && ByteAt(v, 8) == (v / 0x100) % 0x100
      && ByteAt(v, 0) == v % 0x100
  {
    DigitsBound(s);
    Powers();
    assert s[0] != '+' && s[0] != '-' by {
      assert IsHexDigit(s[0]);
    }
    BytesOf24(DigitsValue(s));
  }

  /** `UIColor(hex:alpha:)` with the guard its doc comment promises: exactly six hex
      digits once trimmed and stripped of '#'; a sign is refused like any other
      non-digit. */
  function FromHexDigits(hex: string, alpha: real := 1.0): (c: Color)
    ensures c.alpha == alpha
    ensures 0 <= c.red < 256 && 0 <= c.green < 256 && 0 <= c.blue < 256
    ensures !(|Clean(hex)| == 6 && AllHexDigits(Clean(hex))) ==> c == Rgb(0, 0, 0, alpha)
    ensures |Clean(hex)| == 6 && AllHexDigits(Clean(hex)) ==> c == FromHex(hex, alpha)
  {
    var s := Clean(hex);
    if |s| == 6 && AllHexDigits(s) then
      var v := DigitsValue(s);
      SixDigitsAgree(s);
      Rgb(v / 0x1_0000, (v / 0x100) % 0x100, v % 0x100, alpha)
    else
      Rgb(0, 0, 0, alpha)
  }

  /** The corrected guard sends "-00001" to the black fallback, and still reads every
      six-digit colour, with or without '#', as the original does. */
  lemma DigitsOnlyGuard(v: nat, alpha: real, withHash: bool)
    requires v < 0x100_0000
    ensures FromHexDigits("-" + ToHex(1, 5), alpha) == Rgb(0, 0, 0, alpha)
    ensures var hex := (if withHash then "#" else "") + ToHex(v, 6);
      FromHexDigits(hex, alpha) == Rgb(v / 0x1_0000, (v / 0x100) % 0x100, v % 0x100, alpha)
  {
    SignRefused(alpha);
    CleanOfSix(v, withHash);
    SixDigitRoundTrip(v, alpha, withHash);
  }

  /** The corrected guard refuses "-00001". */
  lemma SignRefused(alpha: real)
    ensures FromHexDigits("-" + ToHex(1, 5), alpha) == Rgb(0, 0, 0, alpha)
  {
    var signed := "-" + ToHex(1, 5);
    assert signed[0] == '-' && signed[1..] == ToHex(1, 5);
    CleanOfTidy(signed);
    assert !IsHexDigit(Clean(signed)[0]);
  }
}
