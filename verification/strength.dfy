/** The scoring half of utils/PasswordGenerator.kt: `calculateStrength` and
    its helpers.

    Character classes are ASCII: Kotlin's `isLowerCase`, `isUpperCase`,
    `isDigit`, `isLetterOrDigit` and `lowercase()` also know non-ASCII
    letters and digits, which this model treats as "other" characters.
    A character here is a Unicode scalar value; Kotlin counts UTF-16 code
    units, so the two agree only within the Basic Multilingual Plane.

    The floating-point entropy `len * ln(n) / ln(2)` is compared against 30,
    50 and 70; here each comparison `len * log2(n) < k` is the exact integer
    comparison `n^len < 2^k`. */
module Strength {
  import opened Models

  const MsgTooShort: string := "Password is too short (minimum 8 characters)"
  const MsgUseTwelve: string := "Consider using at least 12 characters"
  const MsgAddLowercase: string := "Add lowercase letters"
  const MsgAddUppercase: string := "Add uppercase letters"
  const MsgAddNumbers: string := "Add numbers"
  const MsgAddSpecial: string := "Add special characters"
  const MsgPatterns: string := "Avoid common patterns and sequences"
  const MsgRepeated: string := "Avoid repeated characters"
  const MsgExcellent: string := "Excellent password!"

  /** Weak substrings looked for in the lower-cased password. */
  const CommonPatterns: seq<string> := ["123", "321", "abc", "qwe", "asd", "zxc", "password", "admin"]

  // ---- character classification (ASCII) ----

  predicate IsLowerCase(c: char) { 'a' <= c <= 'z' }
  predicate IsUpperCase(c: char) { 'A' <= c <= 'Z' }
  predicate IsDigit(c: char) { '0' <= c <= '9' }
  predicate IsLetterOrDigit(c: char) { IsLowerCase(c) || IsUpperCase(c) || IsDigit(c) }

  predicate AnyLower(p: string) { exists i :: 0 <= i < |p| && IsLowerCase(p[i]) }
  predicate AnyUpper(p: string) { exists i :: 0 <= i < |p| && IsUpperCase(p[i]) }
  predicate AnyDigit(p: string) { exists i :: 0 <= i < |p| && IsDigit(p[i]) }
  predicate AnyOther(p: string) { exists i :: 0 <= i < |p| && !IsLetterOrDigit(p[i]) }

  predicate AllFourClasses(p: string)
  {
    AnyLower(p) && AnyUpper(p) && AnyDigit(p) && AnyOther(p)
  }

  // ---- the score's parts ----

  /** Points for the length band: under 8, 8..11, 12..15, 16 and over. */
  function LengthScore(n: nat): int
  {
    if n < 8 then 0
    else if n < 12 then 15
    else if n >= 16 then 30
    else 25
  }

  /** 5 per letter case and digit present, 10 for any other character, and 15
      more when all four are present. */
  function VarietyScore(p: string): int
  {
    (if AnyLower(p) then 5 else 0)
    + (if AnyUpper(p) then 5 else 0)
    + (if AnyDigit(p) then 5 else 0)
    + (if AnyOther(p) then 10 else 0)
    + (if AllFourClasses(p) then 15 else 0)
  }

  /** The number of different characters in `p`. */
  function DistinctCount(p: string): nat
  {
    |set c | c in p|
  }

  /** The alphabet size the entropy estimate assumes, from the class ladder. */
  function PossibleChars(p: string): nat
  {
    if AllFourClasses(p) then 94
    else if AnyLower(p) && AnyUpper(p) && AnyDigit(p) then 62
    else if AnyLower(p) && AnyUpper(p) then 52
    else if AnyLower(p) && AnyDigit(p) then 36
    else if AnyLower(p) then 26
    else DistinctCount(p)
  }

  function Pow(b: nat, e: nat): nat
    decreases e
  {
    if e == 0 then 1 else b * Pow(b, e - 1)
  }

  const TwoTo30: nat := 0x4000_0000
  const TwoTo50: nat := 0x4_0000_0000_0000
  const TwoTo70: nat := 0x40_0000_0000_0000_0000

  /** Points for the estimated entropy `|p| * log2(n)`: under 30 bits none,
      under 50 ten, under 70 twenty, else 25. For the empty string the
      estimate is 0 * ln(0), not a number; every comparison with it is false,
      so it lands in the last branch. */
  function EntropyScore(p: string): int
  {
    if |p| == 0 then 25
    else
      var growth := Pow(PossibleChars(p), |p|);
      if growth < TwoTo30 then 0
      else if growth < TwoTo50 then 10
      else if growth < TwoTo70 then 20
      else 25
  }

  // ---- weak patterns ----

  /** ASCII `lowercase()`. */
  function ToLower(p: string): (r: string)
    ensures |r| == |p|
  {
    seq(|p|, i requires 0 <= i < |p| => if IsUpperCase(p[i]) then (p[i] as int + 32) as char else p[i])
  }

  /** `pat` occurs in `s` starting at position i. */
  predicate OccursAt(s: string, pat: string, i: int)
  {
    0 <= i && i + |pat| <= |s| && s[i..i + |pat|] == pat
  }

  /** `s.contains(pat)`. */
  predicate Contains(s: string, pat: string)
  {
    exists i :: 0 <= i <= |s| - |pat| && OccursAt(s, pat, i)
  }

  /** Positions i, i+1, i+2 hold code points that step by +1 or by -1. */
  predicate SequentialAt(p: string, i: int)
    requires 0 <= i && i + 2 < |p|
  {
    var a, b, c := p[i] as int, p[i + 1] as int, p[i + 2] as int;
    (b == a + 1 && c == b + 1) || (b == a - 1 && c == b - 1)
  }

  /** Positions i, i+1, i+2 hold the same character. */
  predicate RepeatedAt(p: string, i: int)
    requires 0 <= i && i + 2 < |p|
  {
    p[i] == p[i + 1] && p[i + 1] == p[i + 2]
  }

  predicate HasSequential(p: string)
  {
    exists i :: 0 <= i && i + 2 < |p| && SequentialAt(p, i)
  }

  predicate HasRepeated(p: string)
  {
    exists i :: 0 <= i && i + 2 < |p| && RepeatedAt(p, i)
  }

  predicate HasCommonPattern(p: string)
  {
    (exists k :: 0 <= k < |CommonPatterns| && Contains(ToLower(p), CommonPatterns[k]))
    || HasSequential(p)
  }

  // ---- the report ----

  /** The score before clamping. */
  function RawScore(p: string): int
  {
    LengthScore(|p|) + VarietyScore(p) + EntropyScore(p)
    - (if HasCommonPattern(p) then 20 else 0)
    - (if HasRepeated(p) then 10 else 0)
  }

  /** Kotlin's `coerceIn(0, 100)`. */
  function Clamp(x: int): int
  {
    if x < 0 then 0 else if x > 100 then 100 else x
  }

  /** The `when (score)` band table. */
  function StrengthOf(score: int): PasswordStrength
  {
    if 0 <= score <= 20 then VeryWeak
    else if 21 <= score <= 40 then Weak
    else if 41 <= score <= 60 then Fair
    else if 61 <= score <= 80 then Good
    else if 81 <= score <= 95 then Strong
    else VeryStrong
  }

  /** Advice from the length bands. */
  function LengthAdvice(n: nat): seq<string>
  {
    if n < 8 then [MsgTooShort] else if n < 12 then [MsgUseTwelve] else []
  }

  /** Advice for each missing character class, in the order they are checked. */
  function VarietyAdvice(p: string): seq<string>
  {
    (if AnyLower(p) then [] else [MsgAddLowercase])
    + (if AnyUpper(p) then [] else [MsgAddUppercase])
    + (if AnyDigit(p) then [] else [MsgAddNumbers])
    + (if AnyOther(p) then [] else [MsgAddSpecial])
  }

  /** Advice for the two penalties. */
  function PenaltyAdvice(p: string): seq<string>
  {
    (if HasCommonPattern(p) then [MsgPatterns] else [])
    + (if HasRepeated(p) then [MsgRepeated] else [])
  }

  /** The advice messages, in the order they are added. */
  function Advice(p: string): seq<string>
  {
    LengthAdvice(|p|) + VarietyAdvice(p) + PenaltyAdvice(p)
  }

  /** `calculateStrength`. The score never exceeds 95: 30 for length, 40 for
      variety and 25 for entropy are the most each part gives. */
  function CalculateStrength(p: string): (r: PasswordStrengthResult)
    ensures r.score == Clamp(RawScore(p)) && r.strength == StrengthOf(r.score)
    ensures 0 <= r.score <= 95
    ensures r.score == 0 <==> RawScore(p) <= 0
    ensures r.strength != VeryStrong
    ensures |r.feedback| > 0
    ensures Advice(p) != [] ==> r.feedback == Advice(p)
  {
    var score := Clamp(RawScore(p));
    var feedback := Advice(p);
    PasswordStrengthResult(StrengthOf(score), score, if feedback == [] then [MsgExcellent] else feedback)
  }

  // ---- the statement-by-statement version ----

  /** `password.any(f)`, as the loop it is. */
  method Any(p: string, f: char -> bool) returns (found: bool)
    ensures found <==> exists i :: 0 <= i < |p| && f(p[i])
  {
    var i := 0;
    while i < |p|
      invariant 0 <= i <= |p|
      invariant forall j :: 0 <= j < i ==> !f(p[j])
    {
      if f(p[i]) {
        return true;
      }
      i := i + 1;
    }
    return false;
  }

  /** `hasSequentialCharacters`: the loop over i in 0 until length - 2. */
  method HasSequentialCharacters(password: string) returns (found: bool)
    ensures found <==> HasSequential(password)
    ensures |password| < 3 ==> !found
  {
    var i := 0;
    while i < |password| - 2
      invariant 0 <= i
      invariant forall j :: 0 <= j < i && j + 2 < |password| ==> !SequentialAt(password, j)
    {
      if SequentialAt(password, i) {
        return true;
      }
      i := i + 1;
    }
    return false;
  }

  /** `hasRepeatedCharacters`: the same loop looking for three equal characters. */
  method HasRepeatedCharacters(password: string) returns (found: bool)
    ensures found <==> HasRepeated(password)
    ensures |password| < 3 ==> !found
  {
    var i := 0;
    while i < |password| - 2
      invariant 0 <= i
      invariant forall j :: 0 <= j < i && j + 2 < |password| ==> !RepeatedAt(password, j)
    {
      if RepeatedAt(password, i) {
        return true;
      }
      i := i + 1;
    }
    return false;
  }

  /** `hasCommonPatterns`: any weak substring in the lower-cased password,
      else the sequence check on the password as given. */
  method HasCommonPatterns(password: string) returns (found: bool)
    ensures found <==> HasCommonPattern(password)
  {
    var lowered := ToLower(password);
    var k := 0;
    while k < |CommonPatterns|
      invariant 0 <= k <= |CommonPatterns|
      invariant forall j :: 0 <= j < k ==> !Contains(lowered, CommonPatterns[j])
    {
      if Contains(lowered, CommonPatterns[k]) {
        return true;
      }
      k := k + 1;
    }
    found := HasSequentialCharacters(password);
  }

  /** The length `when`: its points and its advice. */
  method ScoreLength(n: nat) returns (score: int, feedback: seq<string>)
    ensures score == LengthScore(n) && feedback == LengthAdvice(n)
    ensures 0 <= score <= 30
    ensures score == 0 <==> n < 8
    ensures score == 30 <==> n >= 16
    ensures feedback == [] <==> n >= 12
    ensures |feedback| <= 1
  {
    score, feedback := 0, [];
    if n < 8 {
      feedback := feedback + [MsgTooShort];
    } else if n < 12 {
      score := score + 15;
      feedback := feedback + [MsgUseTwelve];
    } else if n >= 16 {
      score := score + 30;
    } else {
      score := score + 25;
    }
  }

  /** The four class checks, counting the classes present. */
  method ScoreVariety(password: string) returns (score: int, feedback: seq<string>)
    ensures score == VarietyScore(password) && feedback == VarietyAdvice(password)
  {
    score, feedback := 0, [];
    var characterSets := 0;
    var lower := Any(password, IsLowerCase);
    if lower {
      characterSets := characterSets + 1;
      score := score + 5;
    } else {
      feedback := feedback + [MsgAddLowercase];
    }
    var upper := Any(password, IsUpperCase);
    if upper {
      characterSets := characterSets + 1;
      score := score + 5;
    } else {
      feedback := feedback + [MsgAddUppercase];
    }
    var digit := Any(password, IsDigit);
    if digit {
      characterSets := characterSets + 1;
      score := score + 5;
    } else {
      feedback := feedback + [MsgAddNumbers];
    }
    var other := Any(password, c => !IsLetterOrDigit(c));
    if other {
      characterSets := characterSets + 1;
      score := score + 10;
    } else {
      feedback := feedback + [MsgAddSpecial];
    }
    assert characterSets >= 4 <==> AllFourClasses(password);
    if characterSets >= 4 {
      score := score + 15;
    }
  }

  /** `calculateStrength` as written: a running score and a growing feedback
      list, clamped and banded at the end. It agrees with the declarative
      `CalculateStrength` on every input. */
  method CalculateStrengthSteps(password: string) returns (result: PasswordStrengthResult)
    ensures result == CalculateStrength(password)
  {
    var score, feedback := ScoreLength(|password|);
    var points, advice := ScoreVariety(password);
    score, feedback := score + points, feedback + advice;
    score := score + EntropyScore(password);
    var common := HasCommonPatterns(password);
    if common {
      score := score - 20;
      feedback := feedback + [MsgPatterns];
    }
    var repeated := HasRepeatedCharacters(password);
    if repeated {
      score := score - 10;
      feedback := feedback + [MsgRepeated];
    }
    assert feedback == Advice(password);
    score := Clamp(score);
    var strength := StrengthOf(score);
    if feedback == [] {
      feedback := [MsgExcellent];
    }
    result := PasswordStrengthResult(strength, score, feedback);
  }

  // ---- properties ----

  /** The thresholds are the powers of two they stand for. */
  lemma ThresholdsArePowersOfTwo()
    ensures TwoTo30 == Pow(2, 30) && TwoTo50 == Pow(2, 50) && TwoTo70 == Pow(2, 70)
  {
    assert Pow(2, 10) == 1024;
    PowAdd(2, 10, 10);
    PowAdd(2, 20, 10);
    PowAdd(2, 30, 20);
    PowAdd(2, 50, 20);
  }

  lemma {:induction false} PowAdd(b: nat, m: nat, n: nat)
    ensures Pow(b, m + n) == Pow(b, m) * Pow(b, n)
    decreases m
  {
    if m > 0 {
      PowAdd(b, m - 1, n);
      assert Pow(b, m + n) == b * Pow(b, m - 1 + n);
    }
  }

  /** Each level covers exactly its band of scores 0..100. */
  lemma StrengthBands(score: int)
    requires 0 <= score <= 100
    ensures StrengthOf(score) == VeryWeak <==> score <= 20
    ensures StrengthOf(score) == Weak <==> 21 <= score <= 40
    ensures StrengthOf(score) == Fair <==> 41 <= score <= 60
    ensures StrengthOf(score) == Good <==> 61 <= score <= 80
    ensures StrengthOf(score) == Strong <==> 81 <= score <= 95
    ensures StrengthOf(score) == VeryStrong <==> 96 <= score
  {
  }

  /** A longer password never earns fewer length points, and once it has 12
      characters it gets no length advice. */
  lemma LengthScoreMonotone(a: nat, b: nat)
    requires a <= b
    ensures LengthScore(a) <= LengthScore(b)
    ensures LengthAdvice(b) == [] <== LengthAdvice(a) == []
    ensures LengthAdvice(a) == [] <==> a >= 12
  {
  }

  lemma {:induction false} PowMonotone(b: nat, m: nat, n: nat)
    requires 1 <= b && m <= n
    ensures Pow(b, m) <= Pow(b, n)
    decreases n
  {
    if m < n {
      PowMonotone(b, m, n - 1);
      assert Pow(b, n) == b * Pow(b, n - 1);
    }
  }

  /** With all four classes the alphabet is taken as 94 characters, so 11
      characters already pass 70 bits (94^11 >= 2^70) and earn the full 25. */
  lemma EntropyFullAlphabet(p: string)
    requires AllFourClasses(p) && |p| >= 11
    ensures PossibleChars(p) == 94
    ensures EntropyScore(p) == 25
  {
    assert Pow(94, 11) == 5062982072492057196544;
    PowMonotone(94, 11, |p|);
  }

  /** A higher score never maps to a weaker level. */
  lemma StrengthMonotone(a: int, b: int)
    requires 0 <= a <= b <= 100
    ensures Ordinal(StrengthOf(a)) <= Ordinal(StrengthOf(b))
  {
  }

  lemma MessagesDiffer()
    ensures MsgExcellent != MsgTooShort && MsgExcellent != MsgUseTwelve
    ensures MsgExcellent != MsgAddLowercase && MsgExcellent != MsgAddUppercase
    ensures MsgExcellent != MsgAddNumbers && MsgExcellent != MsgAddSpecial
    ensures MsgExcellent != MsgPatterns && MsgExcellent != MsgRepeated
    ensures MsgPatterns != MsgTooShort && MsgPatterns != MsgUseTwelve
    ensures MsgPatterns != MsgAddLowercase && MsgPatterns != MsgAddUppercase
    ensures MsgPatterns != MsgAddNumbers && MsgPatterns != MsgAddSpecial
    ensures MsgPatterns != MsgRepeated
    ensures MsgRepeated != MsgTooShort && MsgRepeated != MsgUseTwelve
    ensures MsgRepeated != MsgAddLowercase && MsgRepeated != MsgAddUppercase
    ensures MsgRepeated != MsgAddNumbers && MsgRepeated != MsgAddSpecial
  {
  }

  /** The feedback is the single "Excellent password!" exactly when no
      advice was given, which is exactly when the password has at least 12
      characters, all four classes, no weak pattern and no triple. */
  lemma ExcellentIff(p: string)
    ensures CalculateStrength(p).feedback == [MsgExcellent] <==> Advice(p) == []
    ensures Advice(p) == [] <==>
              |p| >= 12 && AllFourClasses(p) && !HasCommonPattern(p) && !HasRepeated(p)
  {
    MessagesDiffer();
    var a := Advice(p);
    if a != [] {
      assert a[0] in a;
      assert a[0] != MsgExcellent;
    }
  }

  /** The two penalty messages appear exactly when their penalties apply. */
  lemma PenaltyFeedback(p: string)
    ensures MsgPatterns in CalculateStrength(p).feedback <==> HasCommonPattern(p)
    ensures MsgRepeated in CalculateStrength(p).feedback <==> HasRepeated(p)
  {
    MessagesDiffer();
    var l, v, q := LengthAdvice(|p|), VarietyAdvice(p), PenaltyAdvice(p);
    assert MsgPatterns !in l && MsgRepeated !in l;
    assert MsgPatterns !in v && MsgRepeated !in v;
    assert MsgPatterns in q <==> HasCommonPattern(p);
    assert MsgRepeated in q <==> HasRepeated(p);
    var f := CalculateStrength(p).feedback;
    if Advice(p) == [] {
      assert f == [MsgExcellent];
    } else {
      assert f == l + v + q;
      assert forall m :: m in f <==> m in l || m in v || m in q;
    }
  }

  /** The examples the band table is read with. */
  lemma StrengthExamples()
    ensures StrengthOf(40) == Weak && StrengthOf(41) == Fair
    ensures StrengthOf(20) == VeryWeak && StrengthOf(95) == Strong && StrengthOf(96) == VeryStrong
  {
  }

  /** The empty string, which the interface never scores, gets the NaN
      entropy branch: 25 points, so it rates Weak. */
  lemma EmptyPasswordScore()
    ensures CalculateStrength("").score == 25
    ensures CalculateStrength("").strength == Weak
  {
    assert !HasCommonPattern("") by {
      assert !HasSequential("");
      forall k | 0 <= k < |CommonPatterns| ensures !Contains(ToLower(""), CommonPatterns[k]) {
        assert |CommonPatterns[k]| >= 3;
      }
    }
  }

  /** Eight repeated letters: 15 for length, 5 for lower case, 10 for
      26^8 (about 37.6 bits), minus 10 for the triple — 20, Very Weak. */
  lemma RepeatedLetterExample()
    ensures CalculateStrength("aaaaaaaa").score == 20
    ensures CalculateStrength("aaaaaaaa").strength == VeryWeak
    ensures MsgRepeated in CalculateStrength("aaaaaaaa").feedback
  {
    var p := "aaaaaaaa";
    assert IsLowerCase(p[0]);
    assert !AnyUpper(p) && !AnyDigit(p) && !AnyOther(p);
    assert RepeatedAt(p, 0);
    assert !HasSequential(p);
    var lowered := ToLower(p);
    assert lowered == p;
    forall k | 0 <= k < |CommonPatterns| ensures !Contains(lowered, CommonPatterns[k]) {
      assert CommonPatterns[k][0] != 'a' || CommonPatterns[k][1] != 'a';
    }
    assert Pow(26, 8) == 208827064576;
    PenaltyFeedback(p);
  }

  /** A twelve-character password with all four classes, no weak pattern
      and no triple: 25 for length, 40 for variety and 25 for entropy
      (94^12 >= 2^70) — 90, Strong, with nothing to advise. */
  lemma MixedClassExample()
    ensures CalculateStrength("aB3!xQ9#zL2$").score == 90
    ensures CalculateStrength("aB3!xQ9#zL2$").strength == Strong
    ensures CalculateStrength("aB3!xQ9#zL2$").feedback == [MsgExcellent]
  {
    var p := "aB3!xQ9#zL2$";
    assert IsLowerCase(p[0]) && IsUpperCase(p[1]) && IsDigit(p[2]) && !IsLetterOrDigit(p[3]);
    EntropyFullAlphabet(p);
    assert !HasRepeated(p);
    assert !HasSequential(p);
    var lowered := ToLower(p);
    assert lowered == "ab3!xq9#zl2$";
    forall k | 0 <= k < |CommonPatterns| ensures !Contains(lowered, CommonPatterns[k]) {
      var pat := CommonPatterns[k];
      forall i | 0 <= i && i + 2 < |lowered| ensures !StartsLike(lowered, pat, i) {
        assert i == 0 || i == 1 || i == 2 || i == 3 || i == 4 || i == 5 || i == 6 || i == 7 || i == 8 || i == 9;
      }
      NoThreeCharPrefix(lowered, pat);
    }
    assert !HasCommonPattern(p);
    ExcellentIff(p);
  }

  /** Positions i, i+1, i+2 of `s` hold the first three characters of `pat`. */
  predicate StartsLike(s: string, pat: string, i: int)
    requires |pat| >= 3 && 0 <= i && i + 2 < |s|
  {
    s[i] == pat[0] && s[i + 1] == pat[1] && s[i + 2] == pat[2]
  }

  /** A pattern whose first three characters occur nowhere in a row in `s`
      is not contained in `s`. */
  lemma NoThreeCharPrefix(s: string, pat: string)
    requires |pat| >= 3
    requires forall i :: 0 <= i && i + 2 < |s| ==> !StartsLike(s, pat, i)
    ensures !Contains(s, pat)
  {
    forall i | 0 <= i <= |s| - |pat| ensures !OccursAt(s, pat, i) {
      assert !StartsLike(s, pat, i);
    }
  }

  /** The ordering the two examples show: the varied password outscores
      the repeated letter. */
  lemma ScoreOrderingExample()
    ensures CalculateStrength("aaaaaaaa").score < CalculateStrength("aB3!xQ9#zL2$").score
    ensures Ordinal(CalculateStrength("aaaaaaaa").strength) < Ordinal(CalculateStrength("aB3!xQ9#zL2$").strength)
  {
    RepeatedLetterExample();
    MixedClassExample();
  }
}
