/**
 * The structural check of a GST Identification Number that both validation
 * engines apply before touching the database: the PCRE pattern
 * `^[0-9]{2}[A-Z]{5}[0-9]{4}[A-Z]{1}[1-9A-Z]{1}Z[0-9A-Z]{1}$`, applied with
 * `preg_match`. No check digit is computed.
 */
module Gstin {

  /** The character class of one position of the pattern. */
  datatype CharClass = Digit | Letter | NonZeroDigitOrLetter | LetterZ | DigitOrLetter

  predicate IsDigit(c: char) { '0' <= c <= '9' }

  predicate IsLetter(c: char) { 'A' <= c <= 'Z' }

  predicate InClass(c: char, k: CharClass) {
    match k
    case Digit => IsDigit(c)
    case Letter => IsLetter(c)
    case NonZeroDigitOrLetter => ('1' <= c <= '9') || IsLetter(c)
    case LetterZ => c == 'Z'
    case DigitOrLetter => IsDigit(c) || IsLetter(c)
  }

  /** The pattern, one class per position. */
  const Pattern: seq<CharClass> := [
    Digit, Digit,
    Letter, Letter, Letter, Letter, Letter,
    Digit, Digit, Digit, Digit,
    Letter,
    NonZeroDigitOrLetter,
    LetterZ,
    DigitOrLetter]

  /** Whether `s`, from its start to its end, matches the class sequence `p`. */
  predicate MatchesAll(s: string, p: seq<CharClass>)
    decreases |p|
  {
    if p == [] then s == []
    else s != [] && InClass(s[0], p[0]) && MatchesAll(s[1..], p[1..])
  }

  /** `s` is the class sequence `p` position by position, optionally followed by one newline. */
  predicate Positional(s: string, p: seq<CharClass>) {
    && (|s| == |p| || (|s| == |p| + 1 && s[|p|] == '\n'))
    && forall i :: 0 <= i < |p| ==> InClass(s[i], p[i])
  }

  /**
   * `preg_match` with `p` anchored by `^` and `$`: without the D modifier,
   * PCRE's `$` also matches just before a final newline, so the match may be
   * followed by "\n".
   */
  predicate Anchored(s: string, p: seq<CharClass>) {
    MatchesAll(s, p) || (|s| == |p| + 1 && s[|p|] == '\n' && MatchesAll(s[..|p|], p))
  }

  /** The check as the engines apply it: the 15 positions of the pattern, optionally followed by one newline. */
  predicate IsValidGstin(s: string) {
    Positional(s, Pattern)
  }

  /** Matching a class sequence is matching position by position, at equal length. */
  lemma {:induction false} MatchesAllIff(s: string, p: seq<CharClass>)
    ensures MatchesAll(s, p) <==> |s| == |p| && forall i :: 0 <= i < |s| ==> InClass(s[i], p[i])
    decreases |p|
  {
    if p != [] && s != [] {
      MatchesAllIff(s[1..], p[1..]);
      if |s| == |p| && forall i :: 0 <= i < |s| ==> InClass(s[i], p[i]) {
        assert forall i :: 0 <= i < |s[1..]| ==> InClass(s[1..][i], p[1..][i]) by {
          forall i | 0 <= i < |s[1..]| ensures InClass(s[1..][i], p[1..][i]) {
            assert s[1..][i] == s[i + 1];
          }
        }
      }
      if MatchesAll(s, p) {
        forall i | 0 <= i < |s| ensures InClass(s[i], p[i]) {
          if i > 0 {
            assert s[1..][i - 1] == s[i];
          }
        }
      }
    }
  }

  predicate AllDigits(s: string) { forall i :: 0 <= i < |s| ==> IsDigit(s[i]) }

  predicate AllLetters(s: string) { forall i :: 0 <= i < |s| ==> IsLetter(s[i]) }

  /** The layout of a GSTIN, group by group: state code, PAN letters and digits, entity code, 'Z', check character. */
  predicate WellFormed(s: string) {
    && |s| == 15
    && AllDigits(s[0..2])
    && AllLetters(s[2..7])
    && AllDigits(s[7..11])
    && IsLetter(s[11])
    && (('1' <= s[12] <= '9') || IsLetter(s[12]))
    && s[13] == 'Z'
    && (IsDigit(s[14]) || IsLetter(s[14]))
  }

  /** Checking position by position accepts exactly what the anchored expression matches. */
  lemma PositionalIsAnchored(s: string, p: seq<CharClass>)
    ensures Positional(s, p) <==> Anchored(s, p)
  {
    MatchesAllIff(s, p);
    if |s| == |p| + 1 && s[|p|] == '\n' {
      var t := s[..|p|];
      MatchesAllIff(t, p);
      assert forall i :: 0 <= i < |p| ==> t[i] == s[i];
    }
  }

  /** The GSTIN check is `preg_match` of the pattern. */
  lemma CheckIsPregMatch(s: string)
    ensures IsValidGstin(s) <==> Anchored(s, Pattern)
  {
    PositionalIsAnchored(s, Pattern);
  }

  /** The pattern accepts exactly the well-formed strings, optionally followed by one newline. */
  lemma GstinLayout(s: string)
    ensures IsValidGstin(s) <==> WellFormed(s) || (|s| == 16 && s[15] == '\n' && WellFormed(s[..15]))
  {
    if |s| >= 15 {
      LayoutMatches(s[..15]);
      assert forall i :: 0 <= i < 15 ==> s[..15][i] == s[i];
    }
    if |s| == 15 {
      assert s[..15] == s;
    }
  }

  lemma LayoutMatches(s: string)
    requires |s| == 15
    ensures WellFormed(s) <==> forall i :: 0 <= i < 15 ==> InClass(s[i], Pattern[i])
  {
    if WellFormed(s) {
      forall i | 0 <= i < 15 ensures InClass(s[i], Pattern[i]) {
        if i < 2 { assert s[0..2][i] == s[i]; }
        else if i < 7 { assert s[2..7][i - 2] == s[i]; }
        else if i < 11 { assert s[7..11][i - 7] == s[i]; }
      }
    }
    if forall i :: 0 <= i < 15 ==> InClass(s[i], Pattern[i]) {
      assert forall i :: 0 <= i < 2 ==> InClass(s[i], Pattern[i]);
      assert AllDigits(s[0..2]) by {
        forall i | 0 <= i < 2 ensures IsDigit(s[0..2][i]) { assert InClass(s[i], Pattern[i]); }
      }
      assert AllLetters(s[2..7]) by {
        forall i | 0 <= i < 5 ensures IsLetter(s[2..7][i]) { assert InClass(s[i + 2], Pattern[i + 2]); }
      }
      assert AllDigits(s[7..11]) by {
        forall i | 0 <= i < 4 ensures IsDigit(s[7..11][i]) { assert InClass(s[i + 7], Pattern[i + 7]); }
      }
      assert InClass(s[11], Pattern[11]) && InClass(s[12], Pattern[12]);
      assert InClass(s[13], Pattern[13]) && InClass(s[14], Pattern[14]);
    }
  }

  /** A standard GSTIN (Karnataka state code) is accepted. */
  lemma StandardExampleAccepted()
    ensures IsValidGstin("29ABCDE0001F1Z5")
  {
    var s := "29ABCDE0001F1Z5";
    forall i | 0 <= i < 15 ensures InClass(s[i], Pattern[i]) {
      if i < 8 {
        if i < 4 { if i < 2 {} else {} } else { if i < 6 {} else {} }
      } else {
        if i < 12 { if i < 10 {} else {} } else { if i < 14 {} else {} }
      }
    }
  }

  /** A GSTIN with entity code 2 is accepted. */
  lemma SecondExampleAccepted()
    ensures IsValidGstin("29XYZAB1234G2Z7")
  {
    var s := "29XYZAB1234G2Z7";
    forall i | 0 <= i < 15 ensures InClass(s[i], Pattern[i]) {
      if i < 8 {
        if i < 4 { if i < 2 {} else {} } else { if i < 6 {} else {} }
      } else {
        if i < 12 { if i < 10 {} else {} } else { if i < 14 {} else {} }
      }
    }
  }

  /** A GSTIN whose PAN digits are all zero is accepted: no digit group is checked for value. */
  lemma MaharashtraExampleAccepted()
    ensures IsValidGstin("27AAAAA0000A1Z5")
  {
    var s := "27AAAAA0000A1Z5";
    forall i | 0 <= i < 15 ensures InClass(s[i], Pattern[i]) {
      if i < 8 {
        if i < 4 { if i < 2 {} else {} } else { if i < 6 {} else {} }
      } else {
        if i < 12 { if i < 10 {} else {} } else { if i < 14 {} else {} }
      }
    }
  }

  /**
   * Rejected inputs, including the two strings a test script lists as valid:
   * their eighth character 'T' is where the first of four digits must be.
   */
  lemma RejectedExamples()
    ensures !IsValidGstin("INVALID_GSTIN")
    ensures !IsValidGstin("29AATEST")
    ensures !IsValidGstin("")
    ensures !IsValidGstin("29AATEST0001B1X")
    ensures !IsValidGstin("29AATEST1111A1Y")
    ensures !IsValidGstin("29PERF0001A1Z1")
  {
    assert !InClass("29AATEST0001B1X"[7], Pattern[7]);
    assert !InClass("29AATEST1111A1Y"[7], Pattern[7]);
  }

  /** The trailing-newline case: a valid GSTIN followed by "\n" is accepted too, but not one followed by two. */
  lemma TrailingNewlineAccepted(s: string)
    requires WellFormed(s)
    ensures IsValidGstin(s + "\n")
    ensures !IsValidGstin(s + "\n\n")
  {
    GstinLayout(s + "\n");
    assert (s + "\n")[..15] == s;
  }
}
