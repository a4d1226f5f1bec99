/** The three Python `str` operations the helpers in utils.py rely on:
    `startswith`, the substring test `key in text`, and `sep.join(parts)`. */
module Strings {

  /** `key` occurs in `text` as a contiguous block starting at index `i`. */
  predicate OccursAt(text: string, key: string, i: nat) {
    i + |key| <= |text| && text[i..i + |key|] == key
  }

  /** Python's `s.startswith(prefix)`, compared character by character. */
  function StartsWith(s: string, prefix: string): (r: bool)
    ensures r <==> |prefix| <= |s| && s[..|prefix|] == prefix
  {
    if prefix == [] then true
    else if s == [] then false
    else s[0] == prefix[0] && StartsWith(s[1..], prefix[1..])
  }

  /** Python's `key in text` on two strings: a literal, case-sensitive
      substring test. The empty key is found in every text. */
  function Contains(text: string, key: string): bool
    decreases |text|
  {
    if |key| > |text| then false
    else if StartsWith(text, key) then true
    else Contains(text[1..], key)
  }

  /** The scan performed by `Contains` finds `key` exactly when it occurs
      somewhere in `text`. */
  lemma {:induction false} ContainsIff(text: string, key: string)
    ensures Contains(text, key) <==> exists i: nat :: OccursAt(text, key, i)
    decreases |text|
  {
    if |key| > |text| {
    } else if StartsWith(text, key) {
      assert OccursAt(text, key, 0);
    } else {
      ContainsIff(text[1..], key);
      if i: nat :| OccursAt(text[1..], key, i) {
        assert text[1..][i..i + |key|] == text[i + 1..i + 1 + |key|];
        assert OccursAt(text, key, i + 1);
      }
      if i: nat :| OccursAt(text, key, i) {
        assert i != 0;
        assert text[1..][i - 1..i - 1 + |key|] == text[i..i + |key|];
        assert OccursAt(text[1..], key, i - 1);
      }
    }
  }

  /** The empty key is contained in every text, as in Python. */
  lemma EmptyKeyEverywhere(text: string)
    ensures Contains(text, "")
  {
  }

  /** Python's `sep.join(parts)`. */
  function Join(sep: string, parts: seq<string>): string
  {
    if |parts| == 0 then ""
    else if |parts| == 1 then parts[0]
    else parts[0] + sep + Join(sep, parts[1..])
  }

  /** The text before the first newline (all of `s` when it has none). */
  function FirstLine(s: string): (line: string)
    ensures line <= s && '\n' !in line
  {
    if s == [] || s[0] == '\n' then [] else [s[0]] + FirstLine(s[1..])
  }

  /** Whatever follows a newline does not change the first line of a
      newline-free prefix. */
  lemma {:induction false} FirstLineOfJoined(line: string, rest: string)
    requires '\n' !in line
    ensures FirstLine(line + "\n" + rest) == line
  {
    if line != [] {
      assert (line + "\n" + rest)[1..] == line[1..] + "\n" + rest;
      FirstLineOfJoined(line[1..], rest);
    }
  }
}
