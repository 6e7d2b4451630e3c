/** The response of `analyze_text` (main.py): a `summary` of the four labels with
    the insight and suggestion for the readability label, and the five raw scores.
    The scores arrive as inputs: the readability formulas that produce them
    belong to the textstat library and are not part of this model. */
module Analyze {
  import opened Classify

  /** The five readability scores of one text; also the `raw_scores` object of the response. */
  datatype Scores = Scores(
    fleschReadingEase: real,
    gunningFogIndex: real,
    smogIndex: real,
    automatedReadabilityIndex: real,
    daleChallScore: real)

  /** The `summary` object of the response. */
  datatype Summary = Summary(
    overallReadability: string,
    educationLevel: string,
    sentenceComplexity: string,
    wordSimplicity: string,
    insight: string,
    suggestion: string)

  /** The whole response: `summary` and `raw_scores`. */
  datatype Analysis = Analysis(summary: Summary, rawScores: Scores)

  /** The four labels the ladders assign, before they are rendered as text. */
  datatype Classification = Classification(
    readability: Readability,
    level: EducationLevel,
    complexity: SentenceComplexity,
    vocabulary: WordSimplicity)

  function ClassifyScores(s: Scores): Classification {
    Classification(
      OverallReadability(s.fleschReadingEase),
      EducationLevelOf(AverageGrade(s.gunningFogIndex, s.smogIndex, s.automatedReadabilityIndex)),
      SentenceComplexityOf(s.gunningFogIndex, s.smogIndex),
      WordSimplicityOf(s.daleChallScore))
  }

  /** The summary text of a classification: each label's string, and the insight and
      suggestion of the readability label. */
  function Render(c: Classification): Summary {
    Summary(
      c.readability.Label(), c.level.Label(), c.complexity.Label(), c.vocabulary.Label(),
      Insight(c.readability), Suggestion(c.readability))
  }

  /** `analyze_text` after the five textstat calls, in the order main.py computes it. The raw
      scores are echoed unchanged, and the summary is exactly the rendering of the four labels. */
  function AnalyzeText(s: Scores): (a: Analysis)
    ensures a.rawScores == s
    ensures a.summary == Render(ClassifyScores(s))
  {
    var flesch, fog, smog, ari, dale :=
      s.fleschReadingEase, s.gunningFogIndex, s.smogIndex, s.automatedReadabilityIndex, s.daleChallScore;
    var avgGrade := AverageGrade(fog, smog, ari);
    var readability := OverallReadability(flesch);
    var level := EducationLevelOf(avgGrade);
    var sentenceComplexity := SentenceComplexityOf(fog, smog);
    var wordSimplicity := WordSimplicityOf(dale);
    Analysis(
      Summary(readability.Label(), level.Label(), sentenceComplexity.Label(), wordSimplicity.Label(),
              Insight(readability), Suggestion(readability)),
      Scores(flesch, fog, smog, ari, dale))
  }

  /** Rendering loses nothing: two summaries are equal exactly when they render the same
      four labels, so a summary can be read back into its classification. */
  lemma RenderInjective(c1: Classification, c2: Classification)
    ensures Render(c1) == Render(c2) <==> c1 == c2
  {
    ReadabilityTextsDistinct(c1.readability, c2.readability);
    LabelsDistinct(c1.level, c2.level, c1.complexity, c2.complexity, c1.vocabulary, c2.vocabulary);
  }

  /** Two texts get the same summary exactly when their scores fall into the same four bands. */
  lemma SummaryDeterminesClassification(s1: Scores, s2: Scores)
    ensures AnalyzeText(s1).summary == AnalyzeText(s2).summary <==> ClassifyScores(s1) == ClassifyScores(s2)
  {
    RenderInjective(ClassifyScores(s1), ClassifyScores(s2));
  }

  /** Insight and suggestion depend on the readability label alone: the three strings of two
      responses agree or differ together, whatever the other four scores are. */
  lemma FeedbackFollowsReadability(s1: Scores, s2: Scores)
    ensures var a1, a2 := AnalyzeText(s1).summary, AnalyzeText(s2).summary;
      && (a1.overallReadability == a2.overallReadability <==> a1.insight == a2.insight)
      && (a1.overallReadability == a2.overallReadability <==> a1.suggestion == a2.suggestion)
  {
    var r1, r2 := OverallReadability(s1.fleschReadingEase), OverallReadability(s2.fleschReadingEase);
    ReadabilityTextsDistinct(r1, r2);
  }
}
