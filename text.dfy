/** JavaScript string operations the core relies on (`trim`, `replace`, `includes`,
    ASCII case mapping) and the character classes of its regular expressions,
    written out as predicates and functions over `seq<char>`. */
module Text {
  import opened Base

  // ---------------------------------------------------------------------------
  // Character classes

  /** ECMAScript WhiteSpace and LineTerminator code points: what `String.prototype.trim`
      removes and what `\s` matches in a regular expression. */
  predicate IsWhitespace(c: char)
  {
    || c == '\t' || c == '\n' || c == '\U{000B}' || c == '\U{000C}' || c == '\r'
    || c == ' ' || c == '\U{00A0}' || c == '\U{1680}'
    || ('\U{2000}' <= c <= '\U{200A}')
    || c == '\U{2028}' || c == '\U{2029}' || c == '\U{202F}' || c == '\U{205F}'
    || c == '\U{3000}' || c == '\U{FEFF}'
  }

  /** `\d` (ASCII digits only in JavaScript). */
  predicate IsDigit(c: char) { '0' <= c <= '9' }

  predicate IsUpper(c: char) { 'A' <= c <= 'Z' }

  predicate IsLower(c: char) { 'a' <= c <= 'z' }

  /** `[a-zA-Z]` */
  predicate IsLetter(c: char) { IsUpper(c) || IsLower(c) }

  /** `[A-Z0-9]` */
  predicate IsUpperOrDigit(c: char) { IsUpper(c) || IsDigit(c) }

  /** `[a-zA-Z0-9_]` */
  predicate IsWordChar(c: char) { IsLetter(c) || IsDigit(c) || c == '_' }

  /** `[0-9a-fA-F]` */
  predicate IsHexDigit(c: char) { IsDigit(c) || ('a' <= c <= 'f') || ('A' <= c <= 'F') }

  predicate AllDigits(s: string)
  {
    forall i :: 0 <= i < |s| ==> IsDigit(s[i])
  }

  // ---------------------------------------------------------------------------
  // String.prototype.trim

  function TrimStart(s: string): (r: string)
    ensures |r| <= |s| && r == s[|s| - |r|..]
    ensures forall i :: 0 <= i < |s| - |r| ==> IsWhitespace(s[i])
    ensures r == [] || !IsWhitespace(r[0])
  {
    if s != [] && IsWhitespace(s[0]) then
      var r := TrimStart(s[1..]);
      assert s[1..][|s| - 1 - |r|..] == s[|s| - |r|..];
      r
    else s
  }

  function TrimEnd(s: string): (r: string)
    ensures |r| <= |s| && r == s[..|r|]
    ensures forall i :: |r| <= i < |s| ==> IsWhitespace(s[i])
    ensures r == [] || !IsWhitespace(r[|r| - 1])
  {
    if s != [] && IsWhitespace(s[|s| - 1]) then
      var r := TrimEnd(s[..|s| - 1]);
      assert s[..|s| - 1][..|r|] == s[..|r|];
      r
    else s
  }

  /** `r` is `s` with some whitespace dropped from each end and nothing else. */
  predicate IsWhitespaceTrimOf(s: string, r: string)
  {
    exists a, b ::
      && 0 <= a <= b <= |s| && r == s[a..b]
      && (forall i :: 0 <= i < a ==> IsWhitespace(s[i]))
      && (forall i :: b <= i < |s| ==> IsWhitespace(s[i]))
  }

  /** `s.trim()`: the longest slice of `s` that neither starts nor ends with whitespace,
      obtained by dropping only whitespace on either side. */
  function Trim(s: string): (r: string)
    ensures |r| <= |s|
    ensures r == [] || (!IsWhitespace(r[0]) && !IsWhitespace(r[|r| - 1]))
    ensures (s == [] || (!IsWhitespace(s[0]) && !IsWhitespace(s[|s| - 1]))) ==> r == s
  {
    TrimmedEnds(s);
    TrimmedKeepsTrimmed(s);
    TrimEnd(TrimStart(s))
  }

  /** `trim()` removes exactly whitespace, and only from the two ends: its result is a
      slice of the input with nothing but whitespace on either side of it. */
  lemma TrimDropsOnlySurroundingWhitespace(s: string)
    ensures IsWhitespaceTrimOf(s, Trim(s))
  {
    TrimmedIsSlice(s);
  }

  /** The end-trim of the start-trim neither starts nor ends with whitespace. */
  lemma TrimmedEnds(s: string)
    ensures var r := TrimEnd(TrimStart(s));
      r == [] || (!IsWhitespace(r[0]) && !IsWhitespace(r[|r| - 1]))
  {
    var t := TrimStart(s);
    var r := TrimEnd(t);
    assert r != [] ==> r[0] == t[0];
  }

  /** A text without surrounding whitespace is its own end-trim of its start-trim. */
  lemma TrimmedKeepsTrimmed(s: string)
    ensures (s == [] || (!IsWhitespace(s[0]) && !IsWhitespace(s[|s| - 1]))) ==> TrimEnd(TrimStart(s)) == s
  {
    if s == [] || (!IsWhitespace(s[0]) && !IsWhitespace(s[|s| - 1])) {
      assert TrimStart(s) == s;
    }
  }

  /** The end-trim of the start-trim is a slice with only whitespace around it. */
  lemma TrimmedIsSlice(s: string)
    ensures IsWhitespaceTrimOf(s, TrimEnd(TrimStart(s)))
  {
    var t := TrimStart(s);
    SliceOfTrimmed(s, t, TrimEnd(t));
  }

  /** Trimming the start and then the end keeps a slice of `s` with whitespace only
      around it. */
  lemma SliceOfTrimmed(s: string, t: string, r: string)
    requires |t| <= |s| && t == s[|s| - |t|..]
    requires forall i :: 0 <= i < |s| - |t| ==> IsWhitespace(s[i])
    requires |r| <= |t| && r == t[..|r|]
    requires forall i :: |r| <= i < |t| ==> IsWhitespace(t[i])
    ensures IsWhitespaceTrimOf(s, r)
  {
    var a := |s| - |t|;
    var b := a + |r|;
    assert r == s[a..b];
    forall i | b <= i < |s| ensures IsWhitespace(s[i]) {
      assert s[i] == t[i - a];
    }
  }

  // ---------------------------------------------------------------------------
  // .replace(/[<>]/g, '')

  predicate NoAngleBrackets(s: string)
  {
    forall i :: 0 <= i < |s| ==> s[i] != '<' && s[i] != '>'
  }

  /** Every `<` and `>` removed; every other character kept with its multiplicity. */
  function RemoveAngleBrackets(s: string): (r: string)
    ensures NoAngleBrackets(r)
    ensures NoAngleBrackets(s) ==> r == s
    ensures forall c :: c != '<' && c != '>' ==> multiset(r)[c] == multiset(s)[c]
  {
    if s == [] then []
    else
      var rest := RemoveAngleBrackets(s[1..]);
      BracketStep(s, rest);
      if s[0] == '<' || s[0] == '>' then rest else [s[0]] + rest
  }

  /** One step of the bracket strip: what holds of the rest carries over to the whole. */
  lemma BracketStep(s: string, rest: string)
    requires s != []
    requires NoAngleBrackets(rest)
    requires NoAngleBrackets(s[1..]) ==> rest == s[1..]
    requires forall c :: c != '<' && c != '>' ==> multiset(rest)[c] == multiset(s[1..])[c]
    ensures var r := if s[0] == '<' || s[0] == '>' then rest else [s[0]] + rest;
      && NoAngleBrackets(r)
      && (NoAngleBrackets(s) ==> r == s)
      && forall c :: c != '<' && c != '>' ==> multiset(r)[c] == multiset(s)[c]
  {
    assert s == [s[0]] + s[1..];
    assert multiset(s) == multiset{s[0]} + multiset(s[1..]);
    if s[0] != '<' && s[0] != '>' {
      var r := [s[0]] + rest;
      assert multiset(r) == multiset{s[0]} + multiset(rest);
      forall i | 0 <= i < |r| ensures r[i] != '<' && r[i] != '>' {
        if i > 0 {
          assert r[i] == rest[i - 1];
        }
      }
      if NoAngleBrackets(s) {
        assert NoAngleBrackets(s[1..]) by {
          forall i | 0 <= i < |s[1..]| ensures s[1..][i] != '<' && s[1..][i] != '>' {
            assert s[1..][i] == s[i + 1];
          }
        }
      }
    }
  }

  // ---------------------------------------------------------------------------
  // toUpperCase / toLowerCase (ASCII letters)

  function UpperChar(c: char): char
  {
    if IsLower(c) then (c as int - 32) as char else c
  }

  function LowerChar(c: char): char
  {
    if IsUpper(c) then (c as int + 32) as char else c
  }

  function ToUpper(s: string): (r: string)
    ensures |r| == |s|
    ensures forall i :: 0 <= i < |s| ==> r[i] == UpperChar(s[i])
  {
    seq(|s|, i requires 0 <= i < |s| => UpperChar(s[i]))
  }

  function ToLower(s: string): (r: string)
    ensures |r| == |s|
    ensures forall i :: 0 <= i < |s| ==> r[i] == LowerChar(s[i])
  {
    seq(|s|, i requires 0 <= i < |s| => LowerChar(s[i]))
  }

  /** Lower-casing neither creates nor removes whitespace at either end. */
  lemma LowerKeepsEnds(s: string)
    requires s == [] || (!IsWhitespace(s[0]) && !IsWhitespace(s[|s| - 1]))
    ensures var t := ToLower(s); t == [] || (!IsWhitespace(t[0]) && !IsWhitespace(t[|t| - 1]))
  {
  }

  /** A lower-cased string has no upper-case letter, so lower-casing it again changes nothing. */
  lemma LowerIsIdempotent(s: string)
    ensures forall i :: 0 <= i < |s| ==> !IsUpper(ToLower(s)[i])
    ensures ToLower(ToLower(s)) == ToLower(s)
  {
  }

  // ---------------------------------------------------------------------------
  // includes / indexOf / replace with a string pattern

  predicate MatchesAt(s: string, pat: string, j: nat)
  {
    j + |pat| <= |s| && s[j..j + |pat|] == pat
  }

  /** `s.includes(pat)` (case-sensitive). */
  predicate Contains(s: string, pat: string)
  {
    exists j: nat | j <= |s| :: MatchesAt(s, pat, j)
  }

  /** The first position at or after `i` where `pat` occurs. */
  function IndexFrom(s: string, pat: string, i: nat): (r: Option<nat>)
    decreases |s| - i
    ensures r.Some? ==> i <= r.value && MatchesAt(s, pat, r.value)
    ensures forall j: nat :: i <= j && MatchesAt(s, pat, j) ==> r.Some? && r.value <= j
  {
    if i + |pat| > |s| then None
    else if s[i..i + |pat|] == pat then Some(i)
    else IndexFrom(s, pat, i + 1)
  }

  /** `s.indexOf(pat)`, with None for -1. */
  function IndexOf(s: string, pat: string): (r: Option<nat>)
    ensures r.Some? <==> Contains(s, pat)
    ensures r.Some? ==> MatchesAt(s, pat, r.value)
    ensures r.Some? ==> forall j: nat :: j < r.value ==> !MatchesAt(s, pat, j)
  {
    IndexFrom(s, pat, 0)
  }

  /** `s.replace(pat, rep)` with a string pattern: only the first occurrence is replaced. */
  function ReplaceFirst(s: string, pat: string, rep: string): string
  {
    match IndexOf(s, pat)
    case None => s
    case Some(k) => s[..k] + rep + s[k + |pat|..]
  }

  lemma MatchStartsWith(s: string, pat: string, j: nat)
    ensures MatchesAt(s, pat, j) && |pat| >= 2 ==> s[j] == pat[0] && s[j + 1] == pat[1]
  {
    if MatchesAt(s, pat, j) && |pat| >= 2 {
      assert s[j..j + |pat|][1] == s[j + 1];
    }
  }

  /** A string in which the first two characters of `pat` never stand side by side
      does not contain `pat`. */
  lemma NotContainsByPair(s: string, pat: string)
    requires |pat| >= 2
    requires forall j :: 0 <= j < |s| - 1 ==> !(s[j] == pat[0] && s[j + 1] == pat[1])
    ensures !Contains(s, pat)
  {
    forall j: nat | j <= |s| ensures !MatchesAt(s, pat, j) {
      MatchStartsWith(s, pat, j);
    }
  }

  /** `pat` spelled out character by character at position `j` of `s`. */
  lemma ContainsAt(s: string, pat: string, j: nat)
    requires j + |pat| <= |s|
    requires forall k :: 0 <= k < |pat| ==> s[j + k] == pat[k]
    ensures Contains(s, pat)
  {
    assert s[j..j + |pat|] == pat;
    assert MatchesAt(s, pat, j);
  }

  /** A string containing `outer` contains every piece of it. */
  lemma ContainsPiece(s: string, outer: string, k: nat, inner: string)
    requires Contains(s, outer)
    requires k + |inner| <= |outer| && outer[k..k + |inner|] == inner
    ensures Contains(s, inner)
  {
    var j: nat :| j <= |s| && MatchesAt(s, outer, j);
    forall i | 0 <= i < |inner| ensures s[j + k + i] == inner[i] {
      assert inner[i] == outer[k..k + |inner|][i] == outer[k + i];
      assert outer[k + i] == s[j..j + |outer|][k + i];
    }
    ContainsAt(s, inner, j + k);
  }

  // ---------------------------------------------------------------------------
  // Decimal numerals

  function DigitValue(c: char): nat
    requires IsDigit(c)
  {
    c as int - '0' as int
  }

  function DigitChar(d: nat): (c: char)
    requires d < 10
    ensures IsDigit(c) && DigitValue(c) == d
  {
    ('0' as int + d) as char
  }

  /** The value of a string of decimal digits (leading zeros allowed, "" is 0). */
  function DigitsValue(s: string): nat
    requires AllDigits(s)
  {
    if s == [] then 0 else DigitsValue(s[..|s| - 1]) * 10 + DigitValue(s[|s| - 1])
  }

  /** The decimal numeral of `n` without padding, as template literals render an integer. */
  function NatToDecimal(n: nat): (r: string)
    ensures |r| > 0 && AllDigits(r)
    ensures |r| > 1 ==> r[0] != '0'
  {
    if n < 10 then [DigitChar(n)] else NatToDecimal(n / 10) + [DigitChar(n % 10)]
  }

  /** Reading back the numeral of `n` gives `n`. */
  lemma {:induction false} DecimalRoundTrip(n: nat)
    ensures DigitsValue(NatToDecimal(n)) == n
  {
    if n >= 10 {
      DecimalRoundTrip(n / 10);
      var r := NatToDecimal(n);
      assert r[..|r| - 1] == NatToDecimal(n / 10);
    }
  }
}
