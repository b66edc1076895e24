/** The `Email` value object: validation against the pattern
    `^[^@\s]+@[^@\s]+\.[^@\s]+$`, normalisation to lower case, and
    case-insensitive equality. */
module Emails {
  import opened Errors
  import opened Text

  datatype Email = Email(value: string)

  /** A character of the class `[^@\s]`. */
  predicate IsAtomChar(c: char) {
    c != '@' && !IsWhiteSpace(c)
  }

  /** A string `[^@\s]+` matches in full. */
  predicate IsAtom(s: string) {
    |s| > 0 && forall i :: 0 <= i < |s| ==> IsAtomChar(s[i])
  }

  /** Reference reading of the pattern `[^@\s]+@[^@\s]+\.[^@\s]+` matched
      against the whole of `s`: three atoms separated by an '@' and a '.'. */
  ghost predicate MatchesPattern(s: string) {
    exists at, dot :: 0 < at < dot < |s| - 1 && s[at] == '@' && s[dot] == '.'
      && IsAtom(s[..at]) && IsAtom(s[at + 1..dot]) && IsAtom(s[dot + 1..])
  }

  /** First position of `c` in `s`, or -1. */
  function IndexOf(s: string, c: char): (r: int)
    ensures -1 <= r
    ensures r < 0 ==> forall i :: 0 <= i < |s| ==> s[i] != c
    ensures 0 <= r ==> r < |s| && s[r] == c && forall i :: 0 <= i < r ==> s[i] != c
  {
    if |s| == 0 then -1
    else if s[0] == c then 0
    else
      var k := IndexOf(s[1..], c);
      if k < 0 then -1 else k + 1
  }

  /** A '.' that is neither the first nor the last character. */
  predicate HasInnerDot(d: string) {
    exists j | 0 < j < |d| - 1 :: d[j] == '.'
  }

  /** The hand-written test the pattern stands for: no white space, a
      non-empty local part before the first '@', no further '@', and a '.'
      strictly inside the domain. */
  predicate IsEmailShape(s: string) {
    NoWhiteSpace(s) &&
    var at := IndexOf(s, '@');
    0 < at && IndexOf(s[at + 1..], '@') < 0 && HasInnerDot(s[at + 1..])
  }

  /** `EmailRegex.IsMatch(s)`: in .NET an anchoring `$` also matches just
      before a final newline, so a shaped string followed by "\n" matches. */
  predicate RegexIsMatch(s: string) {
    IsEmailShape(s) || (|s| > 0 && s[|s| - 1] == '\n' && IsEmailShape(s[..|s| - 1]))
  }

  /** The part of an accepted input that the pattern's atoms cover. */
  function Shaped(s: string): string {
    if IsEmailShape(s) || |s| == 0 then s else s[..|s| - 1]
  }

  /** `Email.Create`: rejects blank input, then input the pattern does not
      match; otherwise keeps the lower-cased, trimmed input. */
  function Create(email: string): (r: Result<Email>)
    ensures IsBlank(email) ==> r == Failure(Argument(EmailEmpty))
    ensures !IsBlank(email) && !RegexIsMatch(email) ==> r == Failure(Argument(EmailMalformed))
    ensures r.Success? <==> RegexIsMatch(email)
  {
    if IsBlank(email) then Failure(Argument(EmailEmpty))
    else if !RegexIsMatch(email) then Failure(Argument(EmailMalformed))
    else Success(Email(Trim(ToLower(email))))
  }

  /** `Equals(Email? other)`: false for null, else ordinal case-insensitive. */
  predicate Equals(a: Email, other: Option<Email>) {
    other.Some? && ToUpper(a.value) == ToUpper(other.value.value)
  }

  /** A deterministic stand-in for the string hash of .NET. */
  function StringHash(s: string): int
    decreases |s|
  {
    if s == [] then 0
    else (StringHash(s[..|s| - 1]) * 31 + s[|s| - 1] as int) % 0x1_0000_0000
  }

  /** `GetHashCode`: the hash of the case-folded value. */
  function GetHashCode(e: Email): int {
    StringHash(ToUpper(e.value))
  }

  // ---------------------------------------------------------------------
  // The hand-written shape test is the pattern.

  lemma {:induction false} IndexOfIs(s: string, c: char, k: int)
    requires 0 <= k < |s| && s[k] == c
    requires forall i :: 0 <= i < k ==> s[i] != c
    ensures IndexOf(s, c) == k
  {
  }

  lemma {:induction false} ShapeImpliesPattern(s: string)
    requires IsEmailShape(s)
    ensures MatchesPattern(s)
  {
    var at := IndexOf(s, '@');
    var d := s[at + 1..];
    var j :| 0 < j < |d| - 1 && d[j] == '.';
    var dot := at + 1 + j;
    assert s[dot] == '.';
    assert forall i :: at < i < |s| ==> s[i] == d[i - at - 1];
    assert IsAtom(s[..at]);
    assert IsAtom(s[at + 1..dot]);
    assert IsAtom(s[dot + 1..]);
  }

  /** The characters of three atoms joined by '@' and '.': no white space,
      and no '@' but the joining one. */
  lemma {:induction false} PatternChars(s: string, at: int, dot: int)
    requires 0 < at < dot < |s| - 1 && s[at] == '@' && s[dot] == '.'
    requires IsAtom(s[..at]) && IsAtom(s[at + 1..dot]) && IsAtom(s[dot + 1..])
    ensures forall i :: 0 <= i < |s| ==> !IsWhiteSpace(s[i]) && (i != at ==> s[i] != '@')
  {
    forall i | 0 <= i < |s|
      ensures !IsWhiteSpace(s[i]) && (i != at ==> s[i] != '@')
    {
      if i < at {
        assert s[i] == s[..at][i];
      } else if at < i < dot {
        assert s[i] == s[at + 1..dot][i - at - 1];
      } else if dot < i {
        assert s[i] == s[dot + 1..][i - dot - 1];
      }
    }
  }

  lemma {:induction false} PatternImpliesShape(s: string)
    requires MatchesPattern(s)
    ensures IsEmailShape(s)
  {
    var at, dot :| 0 < at < dot < |s| - 1 && s[at] == '@' && s[dot] == '.'
      && IsAtom(s[..at]) && IsAtom(s[at + 1..dot]) && IsAtom(s[dot + 1..]);
    assert NoWhiteSpace(s) && IndexOf(s, '@') == at by {
      PatternChars(s, at, dot);
      IndexOfIs(s, '@', at);
    }
    var d := s[at + 1..];
    assert IndexOf(d, '@') < 0 by {
      PatternChars(s, at, dot);
      assert forall i :: 0 <= i < |d| ==> d[i] == s[at + 1 + i];
    }
    assert HasInnerDot(d) by {
      assert d[dot - at - 1] == '.';
    }
  }

  /** The hand-written predicate accepts exactly the strings the pattern
      matches in full. */
  lemma {:induction false} ShapeIsPattern(s: string)
    ensures IsEmailShape(s) <==> MatchesPattern(s)
  {
    if IsEmailShape(s) {
      ShapeImpliesPattern(s);
    }
    if MatchesPattern(s) {
      PatternImpliesShape(s);
    }
  }

  // ---------------------------------------------------------------------
  // What Create accepts and what it keeps.

  lemma {:induction false} ShapedIsNotBlank(s: string)
    requires IsEmailShape(s)
    ensures !IsBlank(s) && |s| > 0
  {
    assert !IsWhiteSpace(s[0]);
  }

  /** `Create` accepts exactly the inputs the pattern matches in full,
      optionally followed by one newline. */
  lemma {:induction false} CreateAcceptsPattern(email: string)
    ensures Create(email).Success? <==>
      MatchesPattern(email)
      || (|email| > 0 && email[|email| - 1] == '\n' && MatchesPattern(email[..|email| - 1]))
  {
    ShapeIsPattern(email);
    if |email| > 0 {
      ShapeIsPattern(email[..|email| - 1]);
    }
  }

  /** Lower-casing moves no '@'. */
  lemma {:induction false} IndexOfAtLower(s: string)
    ensures IndexOf(ToLower(s), '@') == IndexOf(s, '@')
  {
    var k := IndexOf(s, '@');
    if k >= 0 {
      IndexOfIs(ToLower(s), '@', k);
    }
  }

  lemma {:induction false} LowerKeepsShape(s: string)
    requires IsEmailShape(s)
    ensures IsEmailShape(ToLower(s))
  {
    var t := ToLower(s);
    var at := IndexOf(s, '@');
    LowerKeepsNoWhiteSpace(s);
    IndexOfAtLower(s);
    assert t[at + 1..] == ToLower(s[at + 1..]);
    IndexOfAtLower(s[at + 1..]);
    var j :| 0 < j < |s[at + 1..]| - 1 && s[at + 1..][j] == '.';
    assert t[at + 1..][j] == '.';
  }

  /** An accepted value is the lower-cased input without the final newline
      the pattern tolerates: it has the email shape, no white space and no
      upper-case letter. (`Trim` does remove that newline.) */
  lemma {:induction false} CreateNormalises(email: string)
    requires Create(email).Success?
    ensures Create(email).value.value == ToLower(Shaped(email))
    ensures IsEmailShape(Create(email).value.value)
    ensures IsLower(Create(email).value.value)
  {
    var v := Create(email).value.value;
    if IsEmailShape(email) {
      LowerKeepsNoWhiteSpace(email);
      TrimNoWhiteSpace(ToLower(email));
      LowerKeepsShape(email);
    } else {
      var t := email[..|email| - 1];
      assert email == t + "\n";
      ShapedIsNotBlank(t);
      LowerKeepsNoWhiteSpace(t);
      assert ToLower(email) == ToLower(t) + "\n";
      TrimFinalNewline(ToLower(t));
      LowerKeepsShape(t);
    }
    LowerIsLower(Shaped(email));
  }

  /** Normalisation is idempotent: an accepted value is accepted again and
      kept as it is. */
  lemma {:induction false} CreateIdempotent(email: string)
    requires Create(email).Success?
    ensures Create(Create(email).value.value) == Create(email)
  {
    var v := Create(email).value.value;
    CreateNormalises(email);
    ShapedIsNotBlank(v);
    TrimNoWhiteSpace(ToLower(v));
    LowerIsLower(Shaped(email));
  }

  /** A shaped address followed by one newline is accepted and stored
      exactly as the address alone. */
  lemma {:induction false} NewlineTolerated(t: string)
    requires IsEmailShape(t)
    ensures Create(t + "\n").Success?
    ensures Create(t + "\n") == Create(t)
  {
    var s := t + "\n";
    assert s[..|s| - 1] == t;
    assert !IsEmailShape(s) by {
      ShapedIsNotBlank(t);
      assert IsWhiteSpace(s[|s| - 1]);
    }
    CreateNormalises(s);
    CreateNormalises(t);
  }

  /** Lower-casing an accepted input first changes nothing: it is accepted
      and stored as the same value. */
  lemma {:induction false} CreateIgnoresCase(email: string)
    requires Create(email).Success?
    ensures Create(ToLower(email)) == Create(email)
  {
    var v := Create(email).value.value;
    assert v == ToLower(Shaped(email)) && IsEmailShape(v) by {
      CreateNormalises(email);
    }
    CreateIdempotent(email);
    if !IsEmailShape(email) {
      var t := email[..|email| - 1];
      assert email[|email| - 1] == '\n';
      SplitLast(email);
      assert ToLower(email) == v + "\n" by {
        LowerKeepsFinalNewline(t);
      }
      NewlineTolerated(v);
    }
  }

  /** "a@b.co" has the email shape. */
  lemma {:induction false} SampleIsShaped(t: string)
    requires t == "a@b.co"
    ensures IsEmailShape(t)
  {
    var d := t[2..];
    assert !IsWhiteSpace(t[0]) && !IsWhiteSpace(t[1]) && !IsWhiteSpace(t[2]);
    assert !IsWhiteSpace(t[3]) && !IsWhiteSpace(t[4]) && !IsWhiteSpace(t[5]);
    IndexOfIs(t, '@', 1);
    assert d[0] != '@' && d[1] != '@' && d[2] != '@' && d[3] != '@';
    assert d[1] == '.';
  }

  // ---------------------------------------------------------------------
  // Equality and hashing.

  lemma {:induction false} EqualsIsEquivalence(a: Email, b: Email, c: Email)
    ensures Equals(a, Some(a))
    ensures Equals(a, Some(b)) ==> Equals(b, Some(a))
    ensures Equals(a, Some(b)) && Equals(b, Some(c)) ==> Equals(a, Some(c))
    ensures !Equals(a, None)
  {
  }

  lemma {:induction false} EqualEmailsHashAlike(a: Email, b: Email)
    requires Equals(a, Some(b))
    ensures GetHashCode(a) == GetHashCode(b)
  {
  }

  /** Two accepted emails are equal exactly when their stored values are the
      same string, because both are lower case. */
  lemma {:induction false} CreatedEqualIffSameValue(x: string, y: string)
    requires Create(x).Success? && Create(y).Success?
    ensures Equals(Create(x).value, Some(Create(y).value))
        <==> Create(x).value.value == Create(y).value.value
  {
    var a, b := Create(x).value.value, Create(y).value.value;
    assert IsLower(a) && IsLower(b) by {
      CreateNormalises(x);
      CreateNormalises(y);
    }
    if ToUpper(a) == ToUpper(b) {
      UpperInjectiveOnLower(a, b);
    }
  }
}
