/** The two identifier formats are Java regular expressions of one shape: a
    fixed letter followed by a counted run of digits, `L\d{min,max}`, tested
    with a full match (the whole input must conform, no substring match).
    This module models that shape directly instead of a regular-expression
    engine. `\d` without the Unicode flag is the ASCII range '0'..'9'. */
module Patterns {

  /** `\d` in a Java pattern compiled without UNICODE_CHARACTER_CLASS. */
  predicate IsAsciiDigit(c: char) {
    '0' <= c <= '9'
  }

  /** Reference reading of a digit run: every character is an ASCII digit. */
  predicate AllDigits(s: seq<char>) {
    forall i :: 0 <= i < |s| ==> IsAsciiDigit(s[i])
  }

  /** Full match of `\d{min,max}` against the whole of `s`, consuming one
      character per step: every step spends one of the `max` allowed
      repetitions and, while any remain, one of the `min` required ones. */
  predicate MatchesDigitRun(s: seq<char>, min: nat, max: nat)
    decreases |s|
  {
    if s == [] then min == 0
    else
      0 < max && IsAsciiDigit(s[0])
      && MatchesDigitRun(s[1..], if min == 0 then 0 else min - 1, max - 1)
  }

  /** Full match of `L\d{min,max}` against the whole of `s`. */
  predicate MatchesLetterDigits(s: seq<char>, letter: char, min: nat, max: nat) {
    0 < |s| && s[0] == letter && MatchesDigitRun(s[1..], min, max)
  }

  /** The step-by-step matcher accepts exactly the digit strings whose length
      lies between the two repetition bounds. */
  lemma {:induction false} DigitRunCharacterization(s: seq<char>, min: nat, max: nat)
    ensures MatchesDigitRun(s, min, max) <==> min <= |s| <= max && AllDigits(s)
  {
    if s != [] {
      var min', max' := if min == 0 then 0 else min - 1, if max == 0 then 0 else max - 1;
      DigitRunCharacterization(s[1..], min', max');
      assert AllDigits(s) <==> IsAsciiDigit(s[0]) && AllDigits(s[1..]) by {
        if IsAsciiDigit(s[0]) && AllDigits(s[1..]) {
          forall i | 0 <= i < |s| ensures IsAsciiDigit(s[i]) {
            if i > 0 { assert s[i] == s[1..][i - 1]; }
          }
        }
      }
    }
  }

  /** `L\d{min,max}` matches exactly the strings that start with `letter`,
      have between `min` and `max` further characters, and whose further
      characters are all ASCII digits. */
  lemma LetterDigitsCharacterization(s: seq<char>, letter: char, min: nat, max: nat)
    ensures MatchesLetterDigits(s, letter, min, max)
        <==> (min + 1 <= |s| <= max + 1 && s[0] == letter
              && forall i :: 1 <= i < |s| ==> IsAsciiDigit(s[i]))
  {
    if 0 < |s| {
      DigitRunCharacterization(s[1..], min, max);
      assert AllDigits(s[1..]) <==> forall i :: 1 <= i < |s| ==> IsAsciiDigit(s[i]) by {
        forall i | 1 <= i < |s| ensures s[i] == s[1..][i - 1] { }
      }
    }
  }

  /** Full match, not prefix match: once `s` matches, appending `t` keeps the
      match exactly when `t` is all digits and the repetition bound still
      holds. In particular no non-digit may trail a matching identifier. */
  lemma ExtensionMatches(s: seq<char>, t: seq<char>, letter: char, min: nat, max: nat)
    requires MatchesLetterDigits(s, letter, min, max)
    ensures MatchesLetterDigits(s + t, letter, min, max)
        <==> |s| + |t| <= max + 1 && AllDigits(t)
  {
    LetterDigitsCharacterization(s, letter, min, max);
    LetterDigitsCharacterization(s + t, letter, min, max);
    if AllDigits(t) {
      forall i | 1 <= i < |s + t| ensures IsAsciiDigit((s + t)[i]) {
        if i >= |s| { assert (s + t)[i] == t[i - |s|]; }
      }
    }
    if MatchesLetterDigits(s + t, letter, min, max) {
      forall j | 0 <= j < |t| ensures IsAsciiDigit(t[j]) {
        assert t[j] == (s + t)[|s| + j];
      }
    }
  }
}
