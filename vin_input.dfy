/**
 * The VIN text box's input handler: every keystroke upper-cases the text and
 * deletes each character outside the character class [A-HJ-NPR-Z0-9].
 */
module VinInput {
  import opened Text

  /** Membership in [A-HJ-NPR-Z0-9]: A-H, J-N, P, R-Z and 0-9; I, O and Q are excluded. */
  predicate IsVinChar(c: char)
  {
    ('A' <= c <= 'H') || ('J' <= c <= 'N') || c == 'P' || ('R' <= c <= 'Z') || ('0' <= c <= '9')
  }

  /** `s.replace(/[^A-HJ-NPR-Z0-9]/g, '')`: keeps exactly the VIN characters, in order. */
  function KeepVinChars(s: string): (r: string)
    ensures forall i :: 0 <= i < |r| ==> IsVinChar(r[i])
    ensures forall c :: multiset(r)[c] == if IsVinChar(c) then multiset(s)[c] else 0
    ensures IsSubsequence(r, s)
    ensures |r| <= |s|
  {
    if s == [] then []
    else
      assert s == [s[0]] + s[1..];
      if IsVinChar(s[0]) then [s[0]] + KeepVinChars(s[1..])
      else KeepVinChars(s[1..])
  }

  /** `value.toUpperCase().replace(/[^A-HJ-NPR-Z0-9]/g, '')`. */
  function Sanitise(s: string): (r: string)
    ensures forall i :: 0 <= i < |r| ==> IsVinChar(r[i]) && !IsAsciiLower(r[i]) && r[i] !in "IOQ"
    ensures IsSubsequence(r, ToUpper(s))
    ensures |r| <= |s|
  {
    KeepVinChars(ToUpper(s))
  }

  /** Sanitising distributes over concatenation, so it acts character by character. */
  lemma SanitiseAppend(a: string, b: string)
    ensures Sanitise(a + b) == Sanitise(a) + Sanitise(b)
  {
    ToUpperAppend(a, b);
    KeepVinCharsAppend(ToUpper(a), ToUpper(b));
  }

  lemma ToUpperAppend(a: string, b: string)
    ensures ToUpper(a + b) == ToUpper(a) + ToUpper(b)
  {
    var l, r := ToUpper(a + b), ToUpper(a) + ToUpper(b);
    assert forall i :: 0 <= i < |l| ==> l[i] == r[i];
  }

  lemma {:induction false} KeepVinCharsAppend(a: string, b: string)
    ensures KeepVinChars(a + b) == KeepVinChars(a) + KeepVinChars(b)
  {
    if a == [] {
      assert a + b == b;
    } else {
      assert (a + b)[1..] == a[1..] + b;
      KeepVinCharsAppend(a[1..], b);
    }
  }

  /** A single character is kept, upper-cased, exactly when its upper-case form is a VIN character. */
  lemma SanitiseChar(c: char)
    ensures Sanitise([c]) == if IsVinChar(UpperChar(c)) then [UpperChar(c)] else []
  {
    assert ToUpper([c]) == [UpperChar(c)];
  }

  lemma {:induction false} KeepVinCharsOfVinText(s: string)
    requires forall i :: 0 <= i < |s| ==> IsVinChar(s[i])
    ensures KeepVinChars(s) == s
  {
    if s != [] {
      KeepVinCharsOfVinText(s[1..]);
    }
  }

  lemma {:induction false} ToUpperOfVinText(s: string)
    requires forall i :: 0 <= i < |s| ==> IsVinChar(s[i])
    ensures ToUpper(s) == s
  {
  }

  /** Text made only of VIN characters passes through unchanged. */
  lemma SanitiseOfVinText(s: string)
    requires forall i :: 0 <= i < |s| ==> IsVinChar(s[i])
    ensures Sanitise(s) == s
  {
    ToUpperOfVinText(s);
    KeepVinCharsOfVinText(s);
  }

  /** The sanitised box holds ASCII only, so its JavaScript `length` is its number of characters. */
  lemma SanitisedLength(s: string)
    ensures JsLength(Sanitise(s)) == |Sanitise(s)|
  {
    JsLengthOfBmp(Sanitise(s));
  }

  /** A second keystroke event with no new input changes nothing. */
  lemma SanitiseIdempotent(s: string)
    ensures Sanitise(Sanitise(s)) == Sanitise(s)
  {
    SanitiseOfVinText(Sanitise(s));
  }
}
