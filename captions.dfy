/**
 * Display names for snake_case keys, shared by both scheme panels
 * (`formatKey` and `formatParameterName` are the same rule): split on
 * underscores, upper-case the first letter of each piece, join with spaces.
 */
module Captions {
  import opened Wrappers
  import opened Text
  import Values

  /** The first index holding `c`. */
  function FirstIndex(s: string, c: char): (r: Option<nat>)
    ensures r.Some? ==> r.value < |s| && s[r.value] == c && forall k :: 0 <= k < r.value ==> s[k] != c
    ensures r.None? ==> forall k :: 0 <= k < |s| ==> s[k] != c
  {
    if s == [] then None
    else if s[0] == c then Some(0)
    else match FirstIndex(s[1..], c)
      case None => None
      case Some(i) => Some(i + 1)
  }

  /** JavaScript `s.split(c)` for a one-character separator: every piece, empty ones included. */
  function Split(s: string, c: char): (r: seq<string>)
    ensures |r| >= 1
    decreases |s|
  {
    match FirstIndex(s, c)
    case None => [s]
    case Some(i) => [s[..i]] + Split(s[i + 1..], c)
  }

  /** `word.charAt(0).toUpperCase() + word.slice(1)`. */
  function Capitalize(word: string): string {
    if word == [] then [] else [AsciiUpper(word[0])] + word[1..]
  }

  function CapitalizeAll(words: seq<string>): (r: seq<string>)
    ensures |r| == |words|
  {
    seq(|words|, k requires 0 <= k < |words| => Capitalize(words[k]))
  }

  /** `formatKey` / `formatParameterName`: empty text for an empty key, else the split/capitalise/join. */
  function FormatKey(key: string): string {
    if key == "" then "" else Values.Join(CapitalizeAll(Split(key, '_')), " ")
  }

  /**
   * The caption character by character: an underscore becomes a space, a
   * character at the start or just after an underscore is upper-cased, and
   * every other character is kept.
   */
  function CaptionChar(key: string, p: nat): char
    requires p < |key|
  {
    if key[p] == '_' then ' '
    else if p == 0 || key[p - 1] == '_' then AsciiUpper(key[p])
    else key[p]
  }

  /** Splitting, capitalising and joining is the character-by-character rule. */
  lemma {:induction false} FormatKeyPointwise(key: string)
    ensures |FormatKey(key)| == |key|
    ensures forall p :: 0 <= p < |key| ==> FormatKey(key)[p] == CaptionChar(key, p)
    decreases |key|
  {
    if key != "" {
      match FirstIndex(key, '_')
      case None =>
        assert FormatKey(key) == Capitalize(key);
      case Some(i) =>
        var rest := key[i + 1..];
        var words := Split(key, '_');
        assert words == [key[..i]] + Split(rest, '_');
        assert CapitalizeAll(words) == [Capitalize(key[..i])] + CapitalizeAll(Split(rest, '_'));
        assert FormatKey(key) == Capitalize(key[..i]) + " " + Values.Join(CapitalizeAll(Split(rest, '_')), " ");
        FormatKeyPointwise(rest);
        assert Values.Join(CapitalizeAll(Split(rest, '_')), " ") == FormatKey(rest) by {
          if rest == "" {
            assert Split(rest, '_') == [""];
          }
        }
        forall p | 0 <= p < |key| ensures FormatKey(key)[p] == CaptionChar(key, p) {
          if p > i {
            assert FormatKey(key)[p] == FormatKey(rest)[p - i - 1];
            assert rest[p - i - 1] == key[p];
            if p > i + 1 { assert rest[p - i - 2] == key[p - 1]; }
          }
        }
    }
  }

  /** Captions hold no underscores. */
  lemma NoUnderscore(key: string)
    ensures '_' !in FormatKey(key)
  {
    FormatKeyPointwise(key);
    forall p | 0 <= p < |key| ensures FormatKey(key)[p] != '_' {
      assert CaptionChar(key, p) != '_';
    }
  }

  /** Each underscore makes its own space, so empty pieces leave double spaces. */
  lemma DoubleUnderscore()
    ensures FormatKey("a__b") == "A  B"
  {
    FormatKeyPointwise("a__b");
  }
}
