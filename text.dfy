/** The string helpers of .NET that the core relies on: `char.IsWhiteSpace`
    (the same set as the regex class `\s`), `string.IsNullOrWhiteSpace`,
    `ToLowerInvariant`, ordinal case folding and `Trim`. Case mapping is
    modelled over ASCII letters. */
module Text {

  /** `char.IsWhiteSpace`: U+0009..U+000D, U+0020, U+0085, U+00A0 and the
      Unicode space, line and paragraph separators. */
  predicate IsWhiteSpace(c: char) {
    var n := c as int;
    (0x09 <= n <= 0x0D) || n == 0x20 || n == 0x85 || n == 0xA0 || n == 0x1680
    || (0x2000 <= n <= 0x200A) || n == 0x2028 || n == 0x2029 || n == 0x202F
    || n == 0x205F || n == 0x3000
  }

  /** `string.IsNullOrWhiteSpace` (a null string is modelled as the empty one). */
  predicate IsBlank(s: string) {
    forall i :: 0 <= i < |s| ==> IsWhiteSpace(s[i])
  }

  predicate NoWhiteSpace(s: string) {
    forall i :: 0 <= i < |s| ==> !IsWhiteSpace(s[i])
  }

  function LowerChar(c: char): (r: char)
    ensures IsWhiteSpace(r) <==> IsWhiteSpace(c)
    ensures (r == '@') <==> (c == '@')
    ensures (r == '.') <==> (c == '.')
    ensures (r == '\n') <==> (c == '\n')
  {
    if 'A' <= c <= 'Z' then (c as int + 32) as char else c
  }

  function UpperChar(c: char): (r: char)
  {
    if 'a' <= c <= 'z' then (c as int - 32) as char else c
  }

  /** `ToLowerInvariant`. */
  function ToLower(s: string): (r: string)
    ensures |r| == |s|
    ensures forall i :: 0 <= i < |s| ==> r[i] == LowerChar(s[i])
  {
    seq(|s|, i requires 0 <= i < |s| => LowerChar(s[i]))
  }

  /** The folding `StringComparison.OrdinalIgnoreCase` compares by. */
  function ToUpper(s: string): (r: string)
    ensures |r| == |s|
    ensures forall i :: 0 <= i < |s| ==> r[i] == UpperChar(s[i])
  {
    seq(|s|, i requires 0 <= i < |s| => UpperChar(s[i]))
  }

  predicate IsLower(s: string) {
    forall i :: 0 <= i < |s| ==> LowerChar(s[i]) == s[i]
  }

  function TrimStart(s: string): (r: string)
    decreases |s|
  {
    if |s| > 0 && IsWhiteSpace(s[0]) then TrimStart(s[1..]) else s
  }

  function TrimEnd(s: string): (r: string)
    decreases |s|
  {
    if |s| > 0 && IsWhiteSpace(s[|s| - 1]) then TrimEnd(s[..|s| - 1]) else s
  }

  /** `Trim`: drops leading and trailing white space. */
  function Trim(s: string): string {
    TrimEnd(TrimStart(s))
  }

  lemma {:induction false} LowerIsLower(s: string)
    ensures IsLower(ToLower(s))
    ensures ToLower(ToLower(s)) == ToLower(s)
  {
  }

  lemma {:induction false} LowerKeepsNoWhiteSpace(s: string)
    requires NoWhiteSpace(s)
    ensures NoWhiteSpace(ToLower(s))
  {
  }

  /** A non-empty string is its front followed by its last character. */
  lemma {:induction false} SplitLast(s: string)
    requires |s| > 0
    ensures s == s[..|s| - 1] + [s[|s| - 1]]
  {
  }

  /** Lower-casing keeps a final newline where it is. */
  lemma {:induction false} LowerKeepsFinalNewline(t: string)
    ensures ToLower(t + "\n") == ToLower(t) + "\n"
  {
    var s := t + "\n";
    assert forall i :: 0 <= i < |t| ==> ToLower(s)[i] == ToLower(t)[i];
  }

  /** Trimming a string without white space changes nothing. */
  lemma {:induction false} TrimNoWhiteSpace(s: string)
    requires NoWhiteSpace(s)
    ensures Trim(s) == s
  {
  }

  /** Trimming a white-space free, non-empty string followed by one newline
      removes exactly that newline. */
  lemma {:induction false} TrimFinalNewline(t: string)
    requires |t| > 0 && NoWhiteSpace(t)
    ensures Trim(t + "\n") == t
  {
    var s := t + "\n";
    assert s[0] == t[0];
    assert TrimStart(s) == s;
    assert s[..|s| - 1] == t;
    assert TrimEnd(s) == TrimEnd(t);
    assert !IsWhiteSpace(t[|t| - 1]);
  }

  /** On lower-case strings, ordinal case-insensitive equality is equality. */
  lemma {:induction false} UpperInjectiveOnLower(a: string, b: string)
    requires IsLower(a) && IsLower(b)
    requires ToUpper(a) == ToUpper(b)
    ensures a == b
  {
    assert |a| == |b|;
    forall i | 0 <= i < |a|
      ensures a[i] == b[i]
    {
      assert UpperChar(a[i]) == UpperChar(b[i]);
      assert LowerChar(a[i]) == a[i] && LowerChar(b[i]) == b[i];
    }
  }
}
