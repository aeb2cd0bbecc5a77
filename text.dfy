/** The string primitives the validator and the progress summary rely on:
    Python's `str.isspace`, `str.strip`, the substring test `w in s` and
    `str(n)` for a natural number. */
module Text {

  /** The characters for which Python's `str.isspace` holds: the ASCII
      controls TAB, LF, VT, FF, CR and the separators 0x1C-0x1F, SPACE,
      NEL, NO-BREAK SPACE, and the Unicode space and line/paragraph
      separators. */
  predicate IsWhitespace(c: char) {
    || c == '\t' || c == '\n' || c == '\U{0B}' || c == '\U{0C}' || c == '\r'
    || ('\U{1C}' <= c <= '\U{1F}')
    || c == ' ' || c == '\U{85}' || c == '\U{A0}' || c == '\U{1680}'
    || ('\U{2000}' <= c <= '\U{200A}')
    || c == '\U{2028}' || c == '\U{2029}' || c == '\U{202F}' || c == '\U{205F}'
    || c == '\U{3000}'
  }

  /** Every character of `s` is whitespace (vacuously so for ""). */
  ghost predicate AllWhitespace(s: string) {
    forall k :: 0 <= k < |s| ==> IsWhitespace(s[k])
  }

  /** `s` without its leading whitespace. */
  function TrimStart(s: string): (r: string)
    ensures |r| <= |s| && r == s[|s| - |r|..]
    ensures forall k :: 0 <= k < |s| - |r| ==> IsWhitespace(s[k])
    ensures r != [] ==> !IsWhitespace(r[0])
  {
    if s != [] && IsWhitespace(s[0]) then TrimStart(s[1..]) else s
  }

  /** `s` without its trailing whitespace. */
  function TrimEnd(s: string): (r: string)
    ensures |r| <= |s| && r == s[..|r|]
    ensures forall k :: |r| <= k < |s| ==> IsWhitespace(s[k])
    ensures r != [] ==> !IsWhitespace(r[|r| - 1])
  {
    if s != [] && IsWhitespace(s[|s| - 1]) then TrimEnd(s[..|s| - 1]) else s
  }

  /** Python's `s.strip()`: the part of `s` between its leading and its
      trailing whitespace. */
  function Strip(s: string): (r: string)
    ensures r != [] ==> !IsWhitespace(r[0]) && !IsWhitespace(r[|r| - 1])
    ensures exists i: nat :: OccursAt(s, r, i) && AllWhitespace(s[..i]) && AllWhitespace(s[i + |r|..])
  {
    var t := TrimStart(s);
    var r := TrimEnd(t);
    var i := |s| - |t|;
    assert r == s[i..i + |r|];
    assert OccursAt(s, r, i);
    assert AllWhitespace(s[..i]);
    assert s[i + |r|..] == t[|r|..];
    r
  }

  /** `not s.strip()` holds exactly for the all-whitespace strings. */
  lemma StripEmptyIffAllWhitespace(s: string)
    ensures Strip(s) == [] <==> AllWhitespace(s)
  {
  }

  /** `w` occurs in `s` starting at offset `i`. */
  predicate OccursAt(s: string, w: string, i: nat) {
    i + |w| <= |s| && s[i..i + |w|] == w
  }

  /** Python's `w in s` for strings: `w` is a contiguous substring of `s`
      (the empty string is a substring of every string). */
  function Contains(s: string, w: string): (b: bool)
    ensures b <==> exists i: nat :: OccursAt(s, w, i)
    decreases |s|
  {
    if |w| > |s| then false
    else if s[..|w|] == w then
      assert OccursAt(s, w, 0);
      true
    else
      var b := Contains(s[1..], w);
      assert forall i: nat :: OccursAt(s, w, i + 1) <==> OccursAt(s[1..], w, i) by {
        forall i: nat ensures OccursAt(s, w, i + 1) <==> OccursAt(s[1..], w, i) {
          if i + 1 + |w| <= |s| {
            assert s[1..][i..i + |w|] == s[i + 1..i + 1 + |w|];
          }
        }
      }
      assert !OccursAt(s, w, 0);
      assert b <==> exists i: nat :: OccursAt(s, w, i) by {
        if b {
          var i: nat :| OccursAt(s[1..], w, i);
          assert OccursAt(s, w, i + 1);
        } else {
          forall i: nat ensures !OccursAt(s, w, i) {
            if i > 0 {
              assert !OccursAt(s[1..], w, i - 1);
            }
          }
        }
      }
      b
  }

  /** A string containing no copy of the first character of a non-empty
      `w` does not contain `w`. */
  lemma FirstCharAbsent(s: string, w: string)
    requires |w| > 0
    requires forall k :: 0 <= k < |s| ==> s[k] != w[0]
    ensures !Contains(s, w)
  {
  }

  /** A string that contains a non-whitespace character is not blank, and
      neither is any string containing it. */
  lemma ContainsNonBlankIsNonBlank(s: string, w: string)
    requires !AllWhitespace(w)
    requires Contains(s, w)
    ensures !AllWhitespace(s)
  {
  }

  /** The decimal digits of `n`, most significant first: Python's `str(n)`
      for a non-negative `int`. */
  function Decimal(n: nat): (r: string)
    ensures |r| >= 1 && forall k :: 0 <= k < |r| ==> '0' <= r[k] <= '9'
    ensures r[0] == '0' ==> n == 0 && r == "0"
  {
    if n < 10 then [Digit(n)] else Decimal(n / 10) + [Digit(n % 10)]
  }

  function Digit(d: nat): (c: char)
    requires d < 10
  {
    ['0', '1', '2', '3', '4', '5', '6', '7', '8', '9'][d]
  }

  /** The number a string of decimal digits denotes. */
  function DecimalValue(s: string): nat
    requires forall k :: 0 <= k < |s| ==> '0' <= s[k] <= '9'
  {
    if s == [] then 0
    else 10 * DecimalValue(s[..|s| - 1]) + (s[|s| - 1] as int - '0' as int)
  }

  lemma {:induction false} DecimalRoundTrip(n: nat)
    ensures DecimalValue(Decimal(n)) == n
  {
    var r := Decimal(n);
    if n >= 10 {
      DecimalRoundTrip(n / 10);
      assert r[..|r| - 1] == Decimal(n / 10);
    }
  }
}
