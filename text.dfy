/**
 * Sequence and character helpers shared by the client (JavaScript) and the
 * server (Python) models: first-match search, subsequences, ASCII case
 * mapping and whitespace stripping with each language's own whitespace set.
 */
module Text {
  import opened Wrappers

  /** Index of the first element satisfying `p`, or None when there is none. */
  function FirstIndex<T>(s: seq<T>, p: T -> bool): (r: Option<nat>)
    ensures r.Some? ==> r.value < |s| && p(s[r.value])
    ensures r.Some? ==> forall j :: 0 <= j < r.value ==> !p(s[j])
    ensures r.None? <==> forall j :: 0 <= j < |s| ==> !p(s[j])
  {
    if s == [] then None
    else if p(s[0]) then Some(0)
    else match FirstIndex(s[1..], p)
      case None => None
      case Some(k) => Some(k + 1)
  }

  /** `r` can be obtained from `s` by deleting elements, keeping the order of the rest. */
  predicate IsSubsequence<T(==)>(r: seq<T>, s: seq<T>)
  {
    r == [] || (s != [] && ((r[0] == s[0] && IsSubsequence(r[1..], s[1..])) || IsSubsequence(r, s[1..])))
  }

  predicate IsAsciiUpper(c: char) { 'A' <= c <= 'Z' }
  predicate IsAsciiLower(c: char) { 'a' <= c <= 'z' }
  predicate IsDigit(c: char) { '0' <= c <= '9' }

  /** String.prototype.toUpperCase on one character, restricted to ASCII letters. */
  function UpperChar(c: char): char
  {
    if IsAsciiLower(c) then (c as int - 32) as char else c
  }

  /** String.prototype.toLowerCase on one character, restricted to ASCII letters. */
  function LowerChar(c: char): char
  {
    if IsAsciiUpper(c) then (c as int + 32) as char else c
  }

  function ToUpper(s: string): (r: string)
    ensures |r| == |s|
    ensures forall i :: 0 <= i < |s| ==> r[i] == UpperChar(s[i])
  {
    if s == [] then [] else [UpperChar(s[0])] + ToUpper(s[1..])
  }

  function ToLower(s: string): (r: string)
    ensures |r| == |s|
    ensures forall i :: 0 <= i < |s| ==> r[i] == LowerChar(s[i])
  {
    if s == [] then [] else [LowerChar(s[0])] + ToLower(s[1..])
  }

  /** The comparison `a.toLowerCase() === b.toLowerCase()`. */
  predicate SameIgnoringCase(a: string, b: string)
  {
    ToLower(a) == ToLower(b)
  }

  /** ECMAScript WhiteSpace and LineTerminator code points (what `trim` and `parseInt` skip). */
  predicate IsJsSpace(c: char)
  {
    c == '\t' || c == '\n' || c == '\U{0B}' || c == '\U{0C}' || c == '\r' || c == ' '
    || c == '\U{A0}' || c == '\U{1680}' || ('\U{2000}' <= c <= '\U{200A}')
    || c == '\U{2028}' || c == '\U{2029}' || c == '\U{202F}' || c == '\U{205F}'
    || c == '\U{3000}' || c == '\U{FEFF}'
  }

  /** Python's `str.isspace` (what `str.strip()` skips). */
  predicate IsPySpace(c: char)
  {
    ('\t' <= c <= '\r') || ('\U{1C}' <= c <= '\U{1F}') || c == ' '
    || c == '\U{85}' || c == '\U{A0}' || c == '\U{1680}' || ('\U{2000}' <= c <= '\U{200A}')
    || c == '\U{2028}' || c == '\U{2029}' || c == '\U{202F}' || c == '\U{205F}'
    || c == '\U{3000}'
  }

  /**
   * The white space Python's `int()` skips around a number: every non-ASCII
   * character `str.isspace` accepts, but of the ASCII ones only tab through
   * carriage return and the space; the separators U+001C to U+001F are refused.
   */
  predicate IsPyIntSpace(c: char)
  {
    IsPySpace(c) && !('\U{1C}' <= c <= '\U{1F}')
  }

  /**
   * `String.prototype.length`: UTF-16 code units, one per character plus
   * one more for each character outside the Basic Multilingual Plane (a
   * surrogate pair).
   */
  function JsLength(s: string): nat
  {
    |s| + |set i | 0 <= i < |s| && s[i] as int > 0xFFFF|
  }

  /** Text without characters beyond the Basic Multilingual Plane has a JavaScript length equal to its number of characters. */
  lemma JsLengthOfBmp(s: string)
    requires forall i :: 0 <= i < |s| ==> s[i] as int <= 0xFFFF
    ensures JsLength(s) == |s|
  {
    assert (set i | 0 <= i < |s| && s[i] as int > 0xFFFF) == {};
  }

  /** Drops the leading characters satisfying `isSpace`. */
  function StripStart(s: string, isSpace: char -> bool): (r: string)
    ensures |r| <= |s| && r == s[|s| - |r|..]
    ensures forall i :: 0 <= i < |s| - |r| ==> isSpace(s[i])
    ensures r != [] ==> !isSpace(r[0])
  {
    if s != [] && isSpace(s[0]) then
      var r := StripStart(s[1..], isSpace);
      assert forall i :: 1 <= i < |s| - |r| ==> s[i] == s[1..][i - 1];
      r
    else s
  }

  /** Drops the trailing characters satisfying `isSpace`. */
  function StripEnd(s: string, isSpace: char -> bool): (r: string)
    ensures |r| <= |s| && r == s[..|r|]
    ensures forall i :: |r| <= i < |s| ==> isSpace(s[i])
    ensures r != [] ==> !isSpace(r[|r| - 1])
  {
    if s != [] && isSpace(s[|s| - 1]) then
      var r := StripEnd(s[..|s| - 1], isSpace);
      assert forall i :: |r| <= i < |s| - 1 ==> s[i] == s[..|s| - 1][i];
      r
    else s
  }

  /** `r` is the slice of `s` starting at `a`, and everything of `s` outside that slice is blank. */
  predicate DropsOnlyEnds(s: string, r: string, a: int, isSpace: char -> bool)
  {
    0 <= a <= |s| - |r| && r == s[a..a + |r|]
    && (forall i :: 0 <= i < a ==> isSpace(s[i]))
    && (forall i :: a + |r| <= i < |s| ==> isSpace(s[i]))
  }

  /** Drops leading and trailing characters satisfying `isSpace`. */
  function Strip(s: string, isSpace: char -> bool): (r: string)
    ensures |r| <= |s|
    ensures r == [] <==> forall i :: 0 <= i < |s| ==> isSpace(s[i])
    ensures r != [] ==> !isSpace(r[0]) && !isSpace(r[|r| - 1])
  {
    var t := StripStart(s, isSpace);
    var r := StripEnd(t, isSpace);
    assert r == [] ==> t == [];
    r
  }

  /** What stripping removes is blank and lies at the two ends: the result is a slice of `s`. */
  lemma StripDropsOnlyEnds(s: string, isSpace: char -> bool)
    ensures exists a :: DropsOnlyEnds(s, Strip(s, isSpace), a, isSpace)
  {
    var t := StripStart(s, isSpace);
    StripKeepsMiddle(s, t, StripEnd(t, isSpace), isSpace);
    assert DropsOnlyEnds(s, Strip(s, isSpace), |s| - |t|, isSpace);
  }

  /** A blank-prefixed suffix `t` of `s`, cut back to a blank-suffixed prefix `r`, is a blank-bounded slice of `s`. */
  lemma StripKeepsMiddle(s: string, t: string, r: string, isSpace: char -> bool)
    requires |t| <= |s| && t == s[|s| - |t|..] && forall i :: 0 <= i < |s| - |t| ==> isSpace(s[i])
    requires |r| <= |t| && r == t[..|r|] && forall i :: |r| <= i < |t| ==> isSpace(t[i])
    ensures DropsOnlyEnds(s, r, |s| - |t|, isSpace)
  {
    var a := |s| - |t|;
    forall i | a + |r| <= i < |s|
      ensures isSpace(s[i])
    {
      assert s[i] == t[i - a];
    }
    assert r == s[a..a + |r|];
  }

  /** Stripping twice strips no more than stripping once. */
  lemma StripIdempotent(s: string, isSpace: char -> bool)
    ensures Strip(Strip(s, isSpace), isSpace) == Strip(s, isSpace)
  {
    var r := Strip(s, isSpace);
    if r == [] {
      assert Strip(r, isSpace) == [];
    } else {
      StripOfTrimmed(r, isSpace);
    }
  }

  /** A leading blank is dropped and stripping goes on with the rest. */
  lemma StripStartSkips(c: char, s: string, isSpace: char -> bool)
    requires isSpace(c)
    ensures StripStart([c] + s, isSpace) == StripStart(s, isSpace)
  {
    assert ([c] + s)[1..] == s;
  }

  /** A string that neither starts nor ends with a blank strips to itself. */
  lemma StripOfTrimmed(s: string, isSpace: char -> bool)
    requires s != [] && !isSpace(s[0]) && !isSpace(s[|s| - 1])
    ensures StripStart(s, isSpace) == s && StripEnd(s, isSpace) == s && Strip(s, isSpace) == s
  {
  }

  /** JavaScript's `String.prototype.trim`. */
  function JsTrim(s: string): string { Strip(s, IsJsSpace) }

  /** Python's `str.strip()` with no argument. */
  function PyStrip(s: string): string { Strip(s, IsPySpace) }

  /** Python's `' '.join(parts)`. */
  function JoinWithSpaces(parts: seq<string>): (r: string)
    ensures |parts| == 1 ==> r == parts[0]
    ensures |parts| >= 2 ==> r != []
  {
    if parts == [] then ""
    else if |parts| == 1 then parts[0]
    else parts[0] + " " + JoinWithSpaces(parts[1..])
  }
}
