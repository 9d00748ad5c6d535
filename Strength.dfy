/** The heuristic strength rating `strengthScore` and the label shown for
    it. */
module Strength {
  import opened CharClasses

  /** Whether some character passes the `[a-z]`, `[A-Z]`, `[0-9]` and
      `[^A-Za-z0-9]` tests. */
  predicate HasLower(pw: string) { exists i :: 0 <= i < |pw| && IsLower(pw[i]) }
  predicate HasUpper(pw: string) { exists i :: 0 <= i < |pw| && IsUpper(pw[i]) }
  predicate HasDigit(pw: string) { exists i :: 0 <= i < |pw| && IsDigit(pw[i]) }
  predicate HasOther(pw: string) { exists i :: 0 <= i < |pw| && !IsAlnum(pw[i]) }

  function Point(b: bool): nat { if b then 1 else 0 }

  /** The points the length earns: one from 8 characters, another from 12. */
  function LengthPoints(n: nat): (p: nat)
    ensures p <= 2
  {
    Point(n >= 8) + Point(n >= 12)
  }

  /** The points the character classes present earn. */
  function ClassPoints(pw: string): (p: nat)
    ensures p <= 4
  {
    Point(HasLower(pw)) + Point(HasUpper(pw)) + Point(HasDigit(pw)) + Point(HasOther(pw))
  }

  /** `strengthScore`: 0 for the empty string, otherwise one point per length
      threshold reached and one per character class present. */
  function StrengthScore(pw: string): (r: nat)
    ensures r <= 6
  {
    if pw == [] then 0 else LengthPoints(|pw|) + ClassPoints(pw)
  }

  /** A string scores 0 exactly when it is empty, since every character passes
      one of the four class tests. */
  lemma ScoreZeroIffEmpty(pw: string)
    ensures StrengthScore(pw) == 0 <==> pw == []
    ensures pw != [] ==> StrengthScore(pw) >= 1
  {
    if pw != [] {
      if IsLower(pw[0]) { assert HasLower(pw); }
      else if IsUpper(pw[0]) { assert HasUpper(pw); }
      else if IsDigit(pw[0]) { assert HasDigit(pw); }
      else { assert HasOther(pw); }
    }
  }

  /** The top score needs both length points, hence at least 12 characters;
      a string shorter than 8 scores at most 4. */
  lemma ScoreSixNeedsTwelve(pw: string)
    ensures StrengthScore(pw) == 6 ==> |pw| >= 12
    ensures |pw| < 8 ==> StrengthScore(pw) <= 4
  {
  }

  /** Eight lower-case letters earn one length point and one class point. */
  lemma EightLowerScoresTwo()
    ensures StrengthScore("aaaaaaaa") == 2
  {
    var pw := "aaaaaaaa";
    assert IsLower(pw[0]);
  }

  /** A string of length 8 with all four classes scores 5: only one length
      threshold is reached. */
  lemma AllClassesAtEightScoresFive(pw: string)
    requires |pw| == 8 && HasLower(pw) && HasUpper(pw) && HasDigit(pw) && HasOther(pw)
    ensures StrengthScore(pw) == 5
  {
  }

  /** In particular `Aa1!aaaa` scores 5. */
  lemma MixedEightScoresFive()
    ensures StrengthScore("Aa1!aaaa") == 5
  {
    var pw := "Aa1!aaaa";
    assert IsUpper(pw[0]) && IsLower(pw[1]) && IsDigit(pw[2]) && !IsAlnum(pw[3]);
    AllClassesAtEightScoresFive(pw);
  }

  /** The six labels, weakest first. */
  const Labels: seq<string> :=
    ["Очень слабый", "Слабый", "Средний", "Хороший", "Сильный", "Очень сильный"]

  /** The label index `Math.min(5, strength)`. */
  function LabelIndex(score: nat): (k: nat)
    ensures k < |Labels|
    ensures k <= score && (k < score ==> k == 5)
  {
    if score < 5 then score else 5
  }

  /** The label shown beside the password field. */
  function StrengthLabel(pw: string): (shown: string)
    ensures shown in Labels
  {
    Labels[LabelIndex(StrengthScore(pw))]
  }

  /** The weakest label is shown exactly for the empty field, and the
      strongest exactly for scores 5 and 6. */
  lemma LabelExtremes(pw: string)
    ensures StrengthLabel(pw) == Labels[0] <==> pw == []
    ensures StrengthLabel(pw) == Labels[5] <==> StrengthScore(pw) >= 5
  {
    ScoreZeroIffEmpty(pw);
    var k := LabelIndex(StrengthScore(pw));
    // "very weak" and "very strong" are the only labels of 12 and 13 letters
    assert |Labels[0]| == 12 && |Labels[5]| == 13;
    assert |Labels[1]| == 6 && |Labels[2]| == 7 && |Labels[3]| == 7 && |Labels[4]| == 7;
    if StrengthLabel(pw) == Labels[0] { assert k == 0; }
    if StrengthLabel(pw) == Labels[5] { assert k == 5; }
  }
}
