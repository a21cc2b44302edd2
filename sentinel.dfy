/** The all-clear test on the model's reply: the regular expression
    `/GOOD\sBOY/i` (src/gpt-nagger.ts:143). It is unanchored and carries only
    the `i` flag, so it looks anywhere in the reply for the letters g, o, o,
    d in either case, exactly one white-space character, and b, o, y in
    either case. */
module Sentinel {

  /** What `\s` matches in an ECMAScript regular expression: the WhiteSpace
      and LineTerminator code points. */
  predicate IsSpace(c: char)
  {
    || c == '\t' || c == '\n' || c == '\U{000B}' || c == '\U{000C}' || c == '\r'
    || c == ' ' || c == '\U{00A0}' || c == '\U{1680}'
    || ('\U{2000}' <= c <= '\U{200A}')
    || c == '\U{2028}' || c == '\U{2029}' || c == '\U{202F}' || c == '\U{205F}'
    || c == '\U{3000}' || c == '\U{FEFF}'
  }

  /** Under the `i` flag without `u`, a character matches an ASCII letter
      exactly when it is that letter in lower or upper case: no other
      character folds onto an ASCII letter. */
  predicate SameLetter(c: char, lower: char)
    requires 'a' <= lower <= 'z'
  {
    c == lower || c as int == lower as int - 32
  }

  /** The pattern matches the eight characters starting at `i`. */
  predicate MatchesAt(s: string, i: nat)
  {
    && i + 8 <= |s|
    && SameLetter(s[i], 'g') && SameLetter(s[i + 1], 'o')
    && SameLetter(s[i + 2], 'o') && SameLetter(s[i + 3], 'd')
    && IsSpace(s[i + 4])
    && SameLetter(s[i + 5], 'b') && SameLetter(s[i + 6], 'o')
    && SameLetter(s[i + 7], 'y')
  }

  /** Whether the pattern matches somewhere at or after `from`, trying each
      start position in turn as the regular-expression engine does. */
  function SearchFrom(s: string, from: nat): (found: bool)
    ensures found <==> exists i: nat :: from <= i && MatchesAt(s, i)
    decreases |s| - from
  {
    if from + 8 > |s| then false
    else MatchesAt(s, from) || SearchFrom(s, from + 1)
  }

  /** `/GOOD\sBOY/i.test(s)`. */
  function Test(s: string): (found: bool)
    ensures found <==> exists i: nat :: MatchesAt(s, i)
  {
    SearchFrom(s, 0)
  }

  /** The reply the prompt asks for is recognised, in any letter case and
      with any single white-space character between the words. */
  lemma AllClearRecognised()
    ensures Test("Good boy")
    ensures Test("GOOD BOY") && Test("good boy") && Test("Good\tboy")
  {
    assert MatchesAt("Good boy", 0);
    assert MatchesAt("GOOD BOY", 0);
    assert MatchesAt("good boy", 0);
    assert MatchesAt("Good\tboy", 0);
  }

  /** The words must be separated by exactly one white-space character. */
  lemma SeparatorIsOneSpace()
    ensures !Test("Goodboy")
    ensures !Test("Good  boy")
    ensures !Test("Good-boy")
  {
    var s := "Good  boy";
    forall i: nat ensures !MatchesAt(s, i) {
      if i == 0 { assert s[5] == ' '; }
      if i == 1 { assert s[1] == 'o'; }
    }
    var t := "Good-boy";
    forall i: nat ensures !MatchesAt(t, i) {
      if i == 0 { assert t[4] == '-'; }
    }
  }

  /** The pattern is not anchored: a reply that mentions a good boy anywhere,
      even in a reprimand, counts as the all-clear. */
  lemma UnanchoredMatch(before: string, after: string)
    ensures Test(before + "good boy" + after)
  {
    var s := before + "good boy" + after;
    assert s[|before|..|before| + 8] == "good boy";
    assert MatchesAt(s, |before|);
  }

  /** A match found in part of a reply is a match in the whole reply. */
  lemma MatchExtends(s: string, t: string)
    requires Test(s)
    ensures Test(t + s) && Test(s + t)
  {
    var i: nat :| MatchesAt(s, i);
    assert (t + s)[|t| + i..|t| + i + 8] == s[i..i + 8];
    assert MatchesAt(t + s, |t| + i);
    assert (s + t)[i..i + 8] == s[i..i + 8];
    assert MatchesAt(s + t, i);
  }
}
