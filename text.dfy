/**
 * Character classes and string operations shared by the Python service and
 * the JavaScript front end: whitespace as each language strips it, ASCII
 * case mapping, substring search, removal of a pattern and decimal digits.
 */
module Text {
  import opened Wrappers

  /** Python's `str.isspace()`: the characters `str.strip()` removes. */
  predicate IsPySpace(c: char) {
    ('\t' <= c <= '\r') || ('\U{1c}' <= c <= '\U{1f}') || c == ' ' || c == '\U{85}' || c == '\U{a0}'
    || c == '\U{1680}' || ('\U{2000}' <= c <= '\U{200a}') || c == '\U{2028}' || c == '\U{2029}'
    || c == '\U{202f}' || c == '\U{205f}' || c == '\U{3000}'
  }

  /** JavaScript's WhiteSpace and LineTerminator: the characters `String.prototype.trim()` removes. */
  predicate IsJsSpace(c: char) {
    ('\t' <= c <= '\r') || c == ' ' || c == '\U{a0}' || c == '\U{1680}' || ('\U{2000}' <= c <= '\U{200a}')
    || c == '\U{2028}' || c == '\U{2029}' || c == '\U{202f}' || c == '\U{205f}' || c == '\U{3000}'
    || c == '\U{feff}'
  }

  predicate IsDigit(c: char) { '0' <= c <= '9' }

  predicate AllDigits(s: string) { forall k :: 0 <= k < |s| ==> IsDigit(s[k]) }

  /** A string made only of `isSpace` characters (Python `not s.strip()`, JavaScript `!s.trim()`). */
  predicate Blank(s: string, isSpace: char -> bool) { forall k :: 0 <= k < |s| ==> isSpace(s[k]) }

  function AsciiLower(c: char): char {
    if 'A' <= c <= 'Z' then (c as int + 32) as char else c
  }

  function AsciiUpper(c: char): char {
    if 'a' <= c <= 'z' then (c as int - 32) as char else c
  }

  function Lower(s: string): (r: string)
    ensures |r| == |s| && forall k :: 0 <= k < |s| ==> r[k] == AsciiLower(s[k])
  {
    seq(|s|, k requires 0 <= k < |s| => AsciiLower(s[k]))
  }

  // ---------------------------------------------------------------- stripping

  /** `s` with the leading `isSpace` characters removed. */
  function StripStart(s: string, isSpace: char -> bool): (r: string)
    ensures |r| <= |s| && r == s[|s| - |r|..]
    ensures forall k :: 0 <= k < |s| - |r| ==> isSpace(s[k])
    ensures r == [] || !isSpace(r[0])
  {
    if s != [] && isSpace(s[0]) then
      var r := StripStart(s[1..], isSpace);
      assert s[1..][|s| - 1 - |r|..] == s[|s| - |r|..];
      assert forall k :: 1 <= k < |s| - |r| ==> s[k] == s[1..][k - 1];
      r
    else s
  }

  /** `s` with the trailing `isSpace` characters removed. */
  function StripEnd(s: string, isSpace: char -> bool): (r: string)
    ensures |r| <= |s| && r == s[..|r|]
    ensures forall k :: |r| <= k < |s| ==> isSpace(s[k])
    ensures r == [] || !isSpace(r[|r| - 1])
  {
    if s != [] && isSpace(s[|s| - 1]) then
      var r := StripEnd(s[..|s| - 1], isSpace);
      assert s[..|s| - 1][..|r|] == s[..|r|];
      assert forall k :: |r| <= k < |s| - 1 ==> s[k] == s[..|s| - 1][k];
      r
    else s
  }

  /** Neither starts nor ends with an `isSpace` character. */
  predicate Stripped(s: string, isSpace: char -> bool) {
    s == [] || (!isSpace(s[0]) && !isSpace(s[|s| - 1]))
  }

  /** Python's `s.strip()`: a slice of `s` with no whitespace at either end. */
  function PyStrip(s: string): (r: string)
    ensures Stripped(r, IsPySpace) && |r| <= |s|
  {
    var t := StripStart(s, IsPySpace);
    var r := StripEnd(t, IsPySpace);
    assert r == [] || !IsPySpace(r[0]) by {
      if r != [] { assert r[0] == t[0]; }
    }
    r
  }

  /** JavaScript's `s.trim()`. */
  function JsTrim(s: string): (r: string)
    ensures |r| <= |s|
    ensures r == [] <==> Blank(s, IsJsSpace)
  {
    var t := StripStart(s, IsJsSpace);
    var r := StripEnd(t, IsJsSpace);
    assert r == [] ==> t == [];
    assert Blank(s, IsJsSpace) ==> t == [] by {
      if t != [] { assert t[0] == s[|s| - |t|]; }
    }
    r
  }

  lemma {:induction false} StripStartPadded(pad: string, x: string, isSpace: char -> bool)
    requires Blank(pad, isSpace) && (x == [] || !isSpace(x[0]))
    ensures StripStart(pad + x, isSpace) == x
  {
    if pad != [] {
      assert (pad + x)[1..] == pad[1..] + x;
      StripStartPadded(pad[1..], x, isSpace);
    } else {
      assert pad + x == x;
    }
  }

  lemma {:induction false} StripEndPadded(x: string, pad: string, isSpace: char -> bool)
    requires Blank(pad, isSpace) && (x == [] || !isSpace(x[|x| - 1]))
    ensures StripEnd(x + pad, isSpace) == x
  {
    if pad != [] {
      assert (x + pad)[..|x + pad| - 1] == x + pad[..|pad| - 1];
      StripEndPadded(x, pad[..|pad| - 1], isSpace);
    } else {
      assert x + pad == x;
    }
  }

  /** Stripping a stripped text surrounded by whitespace gives the text back. */
  lemma PyStripPadded(before: string, x: string, after: string)
    requires Blank(before, IsPySpace) && Blank(after, IsPySpace) && Stripped(x, IsPySpace)
    ensures PyStrip(before + x + after) == x
  {
    if x == [] {
      assert before + x + after == before + after;
      StripStartPadded(before + after, [], IsPySpace);
      assert before + after + [] == before + after;
    } else {
      assert before + x + after == before + (x + after);
      StripStartPadded(before, x + after, IsPySpace);
      StripEndPadded(x, after, IsPySpace);
    }
  }

  // ---------------------------------------------------------------- search

  /** `pat` occurs in `s` starting at index `k`. */
  predicate OccursAt(s: string, pat: string, k: nat) {
    k + |pat| <= |s| && s[k..k + |pat|] == pat
  }

  /** The first index at or after `from` where `pat` occurs (Python `s.find(pat, from)`). */
  function Find(s: string, pat: string, from: nat): (r: Option<nat>)
    decreases |s| - from
    ensures r.Some? ==> from <= r.value && OccursAt(s, pat, r.value)
    ensures r.Some? ==> forall k :: from <= k < r.value ==> !OccursAt(s, pat, k)
    ensures r.None? ==> forall k :: from <= k ==> !OccursAt(s, pat, k)
  {
    if from + |pat| > |s| then None
    else if OccursAt(s, pat, from) then Some(from)
    else Find(s, pat, from + 1)
  }

  predicate Contains(s: string, pat: string) { Find(s, pat, 0).Some? }

  predicate StartsWith(s: string, prefix: string) { OccursAt(s, prefix, 0) }

  /** The last index holding `c` (Python `s.rfind(c)` for a one-character pattern). */
  function FindLast(s: string, c: char): (r: Option<nat>)
    ensures r.Some? ==> r.value < |s| && s[r.value] == c && forall k :: r.value < k < |s| ==> s[k] != c
    ensures r.None? ==> forall k :: 0 <= k < |s| ==> s[k] != c
  {
    if s == [] then None
    else if s[|s| - 1] == c then Some(|s| - 1)
    else FindLast(s[..|s| - 1], c)
  }

  /** Every occurrence of `pat` removed, scanning left to right (Python `s.replace(pat, "")`). */
  function RemoveAll(s: string, pat: string): (r: string)
    requires |pat| > 0
    ensures |r| <= |s|
    decreases |s|
  {
    if |s| < |pat| then s
    else if s[..|pat|] == pat then RemoveAll(s[|pat|..], pat)
    else [s[0]] + RemoveAll(s[1..], pat)
  }

  /** Removing a pattern that does not occur leaves the text as it is. */
  lemma {:induction false} RemoveAllAbsent(s: string, pat: string)
    requires |pat| > 0 && forall k :: 0 <= k ==> !OccursAt(s, pat, k)
    ensures RemoveAll(s, pat) == s
    decreases |s|
  {
    if |s| >= |pat| {
      assert !OccursAt(s, pat, 0);
      forall k | 0 <= k ensures !OccursAt(s[1..], pat, k) {
        assert !OccursAt(s, pat, k + 1);
        if k + |pat| <= |s[1..]| {
          assert s[1..][k..k + |pat|] == s[k + 1..k + 1 + |pat|];
        }
      }
      RemoveAllAbsent(s[1..], pat);
      assert s == [s[0]] + s[1..];
    }
  }

  // ---------------------------------------------------------------- decimals

  function DigitChar(d: nat): (c: char)
    requires d < 10
    ensures IsDigit(c)
  {
    ('0' as int + d) as char
  }

  /** The decimal spelling of `n`, without leading zeros (Python `str(n)`, JavaScript `${n}`). */
  function DecimalString(n: nat): (r: string)
    ensures |r| >= 1 && AllDigits(r)
    ensures n >= 10 ==> |r| >= 2
  {
    if n < 10 then [DigitChar(n)] else DecimalString(n / 10) + [DigitChar(n % 10)]
  }

  /** Two numbers with the same decimal spelling are equal. */
  lemma {:induction false} DecimalStringInjective(a: nat, b: nat)
    requires DecimalString(a) == DecimalString(b)
    ensures a == b
  {
    var sa, sb := DecimalString(a), DecimalString(b);
    if a >= 10 && b >= 10 {
      assert sa[|sa| - 1] == DigitChar(a % 10) && sb[|sb| - 1] == DigitChar(b % 10);
      assert DecimalString(a / 10) == sa[..|sa| - 1] == sb[..|sb| - 1] == DecimalString(b / 10);
      DecimalStringInjective(a / 10, b / 10);
    } else if a < 10 && b < 10 {
      assert sa[0] == DigitChar(a) && sb[0] == DigitChar(b);
    }
  }

  /** The number a string of ASCII digits spells (the empty string spells 0). */
  function DigitsValue(s: string): (n: nat)
    requires AllDigits(s)
  {
    if s == [] then 0 else 10 * DigitsValue(s[..|s| - 1]) + (s[|s| - 1] as int - '0' as int)
  }

  /** Reading back a decimal spelling gives the number. */
  lemma {:induction false} DigitsValueOfDecimal(n: nat)
    ensures DigitsValue(DecimalString(n)) == n
  {
    var s := DecimalString(n);
    if n >= 10 {
      assert s[..|s| - 1] == DecimalString(n / 10);
      DigitsValueOfDecimal(n / 10);
    }
  }
}
