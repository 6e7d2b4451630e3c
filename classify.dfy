/** The four threshold ladders of `analyze_text` (main.py): overall readability
    from the Flesch Reading Ease score, education level from the average grade,
    sentence complexity from Gunning Fog and SMOG, word simplicity from the
    Dale-Chall score; and the fixed insight and suggestion for each readability
    label. Scores are exact reals. Each ladder's contract ties it, through the
    unrolling lemmas FourEntries and ExceededTwo, to an independent restatement:
    the band count of module Thresholds over the ladder's own table of bounds.
    The band and monotonicity lemmas below call the table facts to show that
    derivation, although the solver also finds them from the if/else bodies. */
module Classify {
  import opened Thresholds

  // ----- Overall readability (Flesch Reading Ease; higher is easier) -----

  datatype Readability = VeryEasy | Easy | Moderate | Difficult | VeryDifficult {
    /** The label the response carries in `overall_readability`. */
    function Label(): string {
      match this
      case VeryEasy => "Very Easy"
      case Easy => "Easy"
      case Moderate => "Moderate"
      case Difficult => "Difficult"
      case VeryDifficult => "Very Difficult"
    }

    /** Position in the order Very Difficult < Difficult < Moderate < Easy < Very Easy. */
    function Ease(): nat {
      match this
      case VeryDifficult => 0
      case Difficult => 1
      case Moderate => 2
      case Easy => 3
      case VeryEasy => 4
    }
  }

  /** Inclusive lower bounds of Difficult, Moderate, Easy and Very Easy. */
  const FleschBounds: seq<real> := [20.0, 40.0, 60.0, 80.0]

  /** The first ladder of main.py: `flesch >= 80`, `>= 60`, `>= 40`, `>= 20`, else Very Difficult.
      Its label is the number of bounds the score reaches. */
  function OverallReadability(flesch: real): (r: Readability)
    ensures r.Ease() == Reached(FleschBounds, flesch)
  {
    FourEntries(20.0, 40.0, 60.0, 80.0, flesch);
    if flesch >= 80.0 then VeryEasy
    else if flesch >= 60.0 then Easy
    else if flesch >= 40.0 then Moderate
    else if flesch >= 20.0 then Difficult
    else VeryDifficult
  }

  /** Every Flesch score, negative or above 100 included, has exactly one label,
      and each label is a half-open interval closed at its lower end. */
  lemma OverallReadabilityBands(flesch: real)
    ensures OverallReadability(flesch) == VeryEasy <==> 80.0 <= flesch
    ensures OverallReadability(flesch) == Easy <==> 60.0 <= flesch < 80.0
    ensures OverallReadability(flesch) == Moderate <==> 40.0 <= flesch < 60.0
    ensures OverallReadability(flesch) == Difficult <==> 20.0 <= flesch < 40.0
    ensures OverallReadability(flesch) == VeryDifficult <==> flesch < 20.0
  {
    ReachedIsBand(FleschBounds, flesch);
  }

  /** A score exactly on a bound takes the easier label. */
  lemma OverallReadabilityBoundaries()
    ensures OverallReadability(80.0) == VeryEasy
    ensures OverallReadability(60.0) == Easy
    ensures OverallReadability(40.0) == Moderate
    ensures OverallReadability(20.0) == Difficult
  {
  }

  /** A higher Flesch score never gives a harder label. */
  lemma OverallReadabilityMonotone(lo: real, hi: real)
    requires lo <= hi
    ensures OverallReadability(lo).Ease() <= OverallReadability(hi).Ease()
  {
    ReachedMonotone(FleschBounds, lo, hi);
  }

  /** The fixed `insight` text of each readability label. */
  function Insight(r: Readability): string {
    match r
    case VeryEasy => "Your writing is highly accessible — perfect for all audiences."
    case Easy => "Your text is clear and easy to read for most people."
    case Moderate => "Your writing is moderately complex — suitable for mature readers."
    case Difficult => "Your text is quite complex — suitable for professional or academic readers."
    case VeryDifficult => "Your text is highly complex and challenging for general readers."
  }

  /** The fixed `suggestion` text of each readability label. */
  function Suggestion(r: Readability): string {
    match r
    case VeryEasy => "Consider adding variety or complexity if writing for professionals."
    case Easy => "You're doing great — keep sentences concise and engaging."
    case Moderate => "Simplify long sentences and replace advanced words where possible."
    case Difficult => "Use shorter sentences and simpler vocabulary to enhance clarity."
    case VeryDifficult => "Break long sentences and use everyday words to improve readability."
  }

  /** Distinct readability labels carry distinct label strings, insights and suggestions,
      so each of the three strings identifies the label. */
  lemma ReadabilityTextsDistinct(r1: Readability, r2: Readability)
    ensures r1.Label() == r2.Label() <==> r1 == r2
    ensures Insight(r1) == Insight(r2) <==> r1 == r2
    ensures Suggestion(r1) == Suggestion(r2) <==> r1 == r2
  {
    // Any two labels differ in length or in their first character.
    assert r1 != r2 ==> |r1.Label()| != |r2.Label()| || r1.Label()[0] != r2.Label()[0];
    InsightsDistinct(r1, r2);
    SuggestionsDistinct(r1, r2);
  }

  lemma InsightsDistinct(r1: Readability, r2: Readability)
    ensures Insight(r1) == Insight(r2) <==> r1 == r2
  {
    InsightShape(r1);
    InsightShape(r2);
  }

  lemma SuggestionsDistinct(r1: Readability, r2: Readability)
    ensures Suggestion(r1) == Suggestion(r2) <==> r1 == r2
  {
    SuggestionShape(r1);
    SuggestionShape(r2);
  }

  /** The insights have five different lengths. Comparing the string literals
      outright is too costly for the solver; the lengths make it a number comparison. */
  lemma InsightShape(r: Readability)
    ensures |Insight(r)| == match r
      case VeryEasy => 62 case Easy => 52 case Moderate => 65 case Difficult => 75 case VeryDifficult => 64
  {
  }

  /** The suggestions differ in length, except the first and last, whose last words differ. */
  lemma SuggestionShape(r: Readability)
    ensures |Suggestion(r)| == match r
      case VeryEasy => 67 case Easy => 57 case Moderate => 66 case Difficult => 64 case VeryDifficult => 67
    ensures Suggestion(r)[|Suggestion(r)| - 2] == match r
      case VeryEasy => 's' case Easy => 'g' case Moderate => 'e' case Difficult => 'y' case VeryDifficult => 'y'
  {
  }

  // ----- Education level (average of Fog, SMOG and ARI grades) -----

  datatype EducationLevel = ElementarySchool | MiddleSchool | HighSchool | CollegeLevel | GraduateResearch {
    /** The label the response carries in `education_level`. */
    function Label(): string {
      match this
      case ElementarySchool => "Elementary School"
      case MiddleSchool => "Middle School"
      case HighSchool => "High School"
      case CollegeLevel => "College Level"
      case GraduateResearch => "Graduate / Research"
    }

    /** Position in the order Elementary School < ... < Graduate / Research. */
    function Stage(): nat {
      match this
      case ElementarySchool => 0
      case MiddleSchool => 1
      case HighSchool => 2
      case CollegeLevel => 3
      case GraduateResearch => 4
    }
  }

  /** `avg_grade`: the mean of the Gunning Fog, SMOG and ARI grades. */
  function AverageGrade(fog: real, smog: real, ari: real): (g: real)
    ensures 3.0 * g == fog + smog + ari
    ensures (g <= fog || g <= smog || g <= ari) && (fog <= g || smog <= g || ari <= g)
  {
    (fog + smog + ari) / 3.0
  }

  /** Inclusive upper bounds of Elementary, Middle, High School and College. */
  const GradeBounds: seq<real> := [6.0, 9.0, 12.0, 16.0]

  /** The second ladder of main.py: `avg_grade <= 6`, `<= 9`, `<= 12`, `<= 16`, else Graduate / Research.
      Its level is the number of bounds the grade strictly exceeds. */
  function EducationLevelOf(avgGrade: real): (l: EducationLevel)
    ensures l.Stage() == Exceeded(GradeBounds, avgGrade)
  {
    FourEntries(6.0, 9.0, 12.0, 16.0, avgGrade);
    if avgGrade <= 6.0 then ElementarySchool
    else if avgGrade <= 9.0 then MiddleSchool
    else if avgGrade <= 12.0 then HighSchool
    else if avgGrade <= 16.0 then CollegeLevel
    else GraduateResearch
  }

  /** Each level is a half-open interval closed at its upper end; above 16 is Graduate / Research. */
  lemma EducationLevelBands(avgGrade: real)
    ensures EducationLevelOf(avgGrade) == ElementarySchool <==> avgGrade <= 6.0
    ensures EducationLevelOf(avgGrade) == MiddleSchool <==> 6.0 < avgGrade <= 9.0
    ensures EducationLevelOf(avgGrade) == HighSchool <==> 9.0 < avgGrade <= 12.0
    ensures EducationLevelOf(avgGrade) == CollegeLevel <==> 12.0 < avgGrade <= 16.0
    ensures EducationLevelOf(avgGrade) == GraduateResearch <==> 16.0 < avgGrade
  {
    ExceededIsBand(GradeBounds, avgGrade);
  }

  /** A grade exactly on a bound takes the lower level. */
  lemma EducationLevelBoundaries()
    ensures EducationLevelOf(6.0) == ElementarySchool
    ensures EducationLevelOf(9.0) == MiddleSchool
    ensures EducationLevelOf(12.0) == HighSchool
    ensures EducationLevelOf(16.0) == CollegeLevel
  {
  }

  /** A higher average grade never gives a lower level. */
  lemma EducationLevelMonotone(lo: real, hi: real)
    requires lo <= hi
    ensures EducationLevelOf(lo).Stage() <= EducationLevelOf(hi).Stage()
  {
    ExceededMonotone(GradeBounds, lo, hi);
  }

  /** Raising any of the three grade scores, the others held or raised too, never lowers the level. */
  lemma EducationLevelMonotoneInScores(fog1: real, smog1: real, ari1: real, fog2: real, smog2: real, ari2: real)
    requires fog1 <= fog2 && smog1 <= smog2 && ari1 <= ari2
    ensures EducationLevelOf(AverageGrade(fog1, smog1, ari1)).Stage()
         <= EducationLevelOf(AverageGrade(fog2, smog2, ari2)).Stage()
  {
    EducationLevelMonotone(AverageGrade(fog1, smog1, ari1), AverageGrade(fog2, smog2, ari2));
  }

  // ----- Sentence complexity (Gunning Fog and SMOG) -----

  datatype SentenceComplexity = SimpleSentences | ModerateSentences | VeryComplex {
    /** The label the response carries in `sentence_complexity`. */
    function Label(): string {
      match this
      case SimpleSentences => "Simple"
      case ModerateSentences => "Moderate"
      case VeryComplex => "Very Complex"
    }

    /** Position in the order Simple < Moderate < Very Complex. */
    function Degree(): nat {
      match this
      case SimpleSentences => 0
      case ModerateSentences => 1
      case VeryComplex => 2
    }
  }

  /** Strict lower bounds of Moderate and Very Complex on the Fog index. */
  const FogBounds: seq<real> := [14.0, 18.0]

  /** Strict lower bound of Very Complex on the SMOG index. */
  const SmogBound: real := 14.0

  function Max(a: nat, b: nat): nat {
    if a < b then b else a
  }

  /** The third ladder of main.py: `fog > 18 or smog > 14` is Very Complex, else `fog > 14` is Moderate,
      else Simple. The result is the harder of Fog's own band and SMOG's verdict, where SMOG
      can only ever say Simple or Very Complex. */
  function SentenceComplexityOf(fog: real, smog: real): (c: SentenceComplexity)
    ensures c.Degree() == Max(Exceeded(FogBounds, fog), if smog > SmogBound then 2 else 0)
  {
    ExceededTwo(14.0, 18.0, fog);
    if fog > 18.0 || smog > 14.0 then VeryComplex
    else if fog > 14.0 then ModerateSentences
    else SimpleSentences
  }

  lemma SentenceComplexityBands(fog: real, smog: real)
    ensures SentenceComplexityOf(fog, smog) == VeryComplex <==> fog > 18.0 || smog > 14.0
    ensures SentenceComplexityOf(fog, smog) == ModerateSentences <==> 14.0 < fog <= 18.0 && smog <= 14.0
    ensures SentenceComplexityOf(fog, smog) == SimpleSentences <==> fog <= 14.0 && smog <= 14.0
  {
  }

  /** SMOG never produces Moderate on its own: with Fog at or below 14, any SMOG score
      gives Simple or Very Complex, and Moderate needs Fog above 14. */
  lemma SmogNeverAloneModerate(fog: real, smog: real)
    ensures fog <= 14.0 ==> SentenceComplexityOf(fog, smog) != ModerateSentences
    ensures SentenceComplexityOf(fog, smog) == ModerateSentences ==> SentenceComplexityOf(fog, 0.0) == ModerateSentences
  {
  }

  /** Higher Fog or SMOG scores never give a simpler label. */
  lemma SentenceComplexityMonotone(fog1: real, smog1: real, fog2: real, smog2: real)
    requires fog1 <= fog2 && smog1 <= smog2
    ensures SentenceComplexityOf(fog1, smog1).Degree() <= SentenceComplexityOf(fog2, smog2).Degree()
  {
    ExceededMonotone(FogBounds, fog1, fog2);
  }

  // ----- Word simplicity (Dale-Chall) -----

  datatype WordSimplicity = SimpleVocabulary | ModerateVocabulary | AdvancedVocabulary {
    /** The label the response carries in `word_simplicity`. */
    function Label(): string {
      match this
      case SimpleVocabulary => "Simple Vocabulary"
      case ModerateVocabulary => "Moderate Vocabulary"
      case AdvancedVocabulary => "Advanced Vocabulary"
    }

    /** Position in the order Simple < Moderate < Advanced. */
    function Degree(): nat {
      match this
      case SimpleVocabulary => 0
      case ModerateVocabulary => 1
      case AdvancedVocabulary => 2
    }
  }

  /** Strict lower bounds of Moderate and Advanced vocabulary on the Dale-Chall score. */
  const DaleBounds: seq<real> := [8.0, 10.0]

  /** The fourth ladder of main.py: `dale > 10` is Advanced, else `dale > 8` is Moderate, else Simple.
      Its label is the number of bounds the score strictly exceeds. */
  function WordSimplicityOf(dale: real): (w: WordSimplicity)
    ensures w.Degree() == Exceeded(DaleBounds, dale)
  {
    ExceededTwo(8.0, 10.0, dale);
    if dale > 10.0 then AdvancedVocabulary
    else if dale > 8.0 then ModerateVocabulary
    else SimpleVocabulary
  }

  lemma WordSimplicityBands(dale: real)
    ensures WordSimplicityOf(dale) == AdvancedVocabulary <==> 10.0 < dale
    ensures WordSimplicityOf(dale) == ModerateVocabulary <==> 8.0 < dale <= 10.0
    ensures WordSimplicityOf(dale) == SimpleVocabulary <==> dale <= 8.0
  {
    ExceededIsBand(DaleBounds, dale);
  }

  /** The bounds are strict: 10 is still Moderate and 8 is still Simple. */
  lemma WordSimplicityBoundaries()
    ensures WordSimplicityOf(10.0) == ModerateVocabulary
    ensures WordSimplicityOf(8.0) == SimpleVocabulary
  {
  }

  lemma WordSimplicityMonotone(lo: real, hi: real)
    requires lo <= hi
    ensures WordSimplicityOf(lo).Degree() <= WordSimplicityOf(hi).Degree()
  {
    ExceededMonotone(DaleBounds, lo, hi);
  }

  /** Distinct labels of the three other ladders carry distinct strings. */
  lemma LabelsDistinct(l1: EducationLevel, l2: EducationLevel, c1: SentenceComplexity, c2: SentenceComplexity,
                       w1: WordSimplicity, w2: WordSimplicity)
    ensures l1.Label() == l2.Label() <==> l1 == l2
    ensures c1.Label() == c2.Label() <==> c1 == c2
    ensures w1.Label() == w2.Label() <==> w1 == w2
  {
    assert l1 != l2 ==> |l1.Label()| != |l2.Label()| || l1.Label()[0] != l2.Label()[0];
    assert c1 != c2 ==> |c1.Label()| != |c2.Label()|;
    assert w1 != w2 ==> |w1.Label()| != |w2.Label()| || w1.Label()[0] != w2.Label()[0];
  }
}
