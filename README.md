# Readability classification engine

A Dafny model of the classification core of the readability backend's `analyze_text`
endpoint (`main.py`). Given the five readability scores of a text (Flesch Reading Ease,
Gunning Fog, SMOG, Automated Readability Index, Dale-Chall), the engine

- labels overall readability from the Flesch score (Very Easy, Easy, Moderate, Difficult,
  Very Difficult), with one fixed insight and one fixed suggestion per label;
- derives `avg_grade`, the mean of Fog, SMOG and ARI, and labels the education level
  (Elementary School, Middle School, High School, College Level, Graduate / Research);
- labels sentence complexity from Fog and SMOG (Simple, Moderate, Very Complex);
- labels word simplicity from Dale-Chall (Simple, Moderate, Advanced Vocabulary);
- returns a `summary` of those strings and the `raw_scores` unchanged.

Files:

- `thresholds.dfy` (module `Thresholds`): the reference reading of a threshold ladder. A ladder
  with inclusive lower bounds puts a score in the band numbered by how many bounds it reaches
  (`Reached`); one with strict bounds, by how many it exceeds (`Exceeded`). Proved by induction:
  both counts are monotone in the score, and over an ascending table every score, however far
  out of range, lies in exactly one half-open band.
- `classify.dfy` (module `Classify`): the four ladders as datatypes and functions. Each ladder's
  contract equates its label's position with the band count over its own table of bounds; lemmas
  give the band intervals in both directions, the values exactly on a bound, monotonicity, and
  that distinct labels carry distinct strings.
- `analyze.dfy` (module `Analyze`): the response record and `AnalyzeText`, with lemmas that the
  summary determines, and is determined by, the four labels, and that insight and suggestion
  follow the readability label alone.

Scores are exact `real`s. The labels are main.py's own: "Elementary School", "College Level" and
"Graduate / Research"; overall readability comes from the Flesch score alone; `analyze_text` neither
rejects empty text nor computes tone or similarity scores.

## Model

| member | source | states |
|---|---|---|
| Classify.OverallReadability | main.py:43-62 | the label's position (Very Difficult 0 … Very Easy 4) equals the number of the bounds 20, 40, 60, 80 the Flesch score reaches |
| Classify.OverallReadabilityBands | main.py:43-62 | every Flesch score, negative or above 100 included, gets exactly one label: Very Easy iff ≥ 80, Easy iff in [60, 80), Moderate iff in [40, 60), Difficult iff in [20, 40), Very Difficult iff < 20 |
| Classify.OverallReadabilityBoundaries | main.py:43-58 | lower bounds are inclusive: 80 is Very Easy, 60 Easy, 40 Moderate, 20 Difficult |
| Classify.OverallReadabilityMonotone | main.py:43-62 | a higher Flesch score never gives a harder label |
| Classify.ReadabilityTextsDistinct | main.py:43-62 | the insight and suggestion table (`Insight`, `Suggestion`, main.py:45-62) and the readability label strings: two readability labels are equal iff their label strings are, iff their insights are, iff their suggestions are: one fixed, distinct insight/suggestion pair per label |
| Classify.AverageGrade | main.py:40 | `avg_grade` times 3 is fog + smog + ari, and it lies between the smallest and the largest of the three |
| Classify.EducationLevelOf | main.py:65-74 | the level's position equals the number of the bounds 6, 9, 12, 16 the average grade strictly exceeds |
| Classify.EducationLevelBands | main.py:65-74 | Elementary iff ≤ 6, Middle iff in (6, 9], High iff in (9, 12], College iff in (12, 16], Graduate / Research iff > 16 |
| Classify.EducationLevelBoundaries | main.py:65-72 | upper bounds are inclusive: 6 is Elementary, 9 Middle, 12 High School, 16 College |
| Classify.EducationLevelMonotone | main.py:65-74 | a higher average grade never gives a lower level |
| Classify.EducationLevelMonotoneInScores | main.py:40-74 | raising Fog, SMOG or ARI (the others not lowered) never lowers the level |
| Classify.SentenceComplexityOf | main.py:77-82 | the label's position is the larger of Fog's own band over the strict bounds 14, 18 and SMOG's verdict, which is Very Complex above 14 and Simple otherwise |
| Classify.SentenceComplexityBands | main.py:77-82 | Very Complex iff fog > 18 or smog > 14; Moderate iff 14 < fog ≤ 18 and smog ≤ 14; Simple iff fog ≤ 14 and smog ≤ 14 |
| Classify.SmogNeverAloneModerate | main.py:77-82 | with fog ≤ 14 no SMOG score gives Moderate, and a Moderate result stays Moderate with SMOG set to 0 |
| Classify.SentenceComplexityMonotone | main.py:77-82 | higher Fog or SMOG scores never give a simpler label |
| Classify.WordSimplicityOf | main.py:85-90 | the label's position equals the number of the bounds 8, 10 the Dale-Chall score strictly exceeds |
| Classify.WordSimplicityBands | main.py:85-90 | Advanced iff dale > 10, Moderate iff 8 < dale ≤ 10, Simple iff dale ≤ 8 |
| Classify.WordSimplicityBoundaries | main.py:85-90 | bounds are strict: 10 is Moderate Vocabulary and 8 is Simple Vocabulary |
| Classify.WordSimplicityMonotone | main.py:85-90 | a higher Dale-Chall score never gives a simpler vocabulary label |
| Classify.LabelsDistinct | main.py:65-90 | education, sentence and vocabulary labels are equal iff their strings are |
| Analyze.AnalyzeText | main.py:93-108 | `raw_scores` echoes the five input scores unchanged, and `summary` is exactly `Render(ClassifyScores(s))`: `ClassifyScores` runs the four ladders on the scores (main.py:40-90) and `Render` builds the six summary fields from those labels, with the readability label's insight and suggestion (main.py:94-101) |
| Analyze.RenderInjective | main.py:93-101 | two summaries are equal iff they render the same four labels: the summary adds and loses nothing |
| Analyze.SummaryDeterminesClassification | main.py:93-101 | two score sets get the same summary iff they fall into the same four bands |
| Analyze.FeedbackFollowsReadability | main.py:43-62 | in any two responses, the readability labels agree iff the insights agree, iff the suggestions agree, whatever the other scores |

## Left out

- The FastAPI application, its CORS middleware, the `/` and `/health` endpoints and the `TextRequest` body (main.py:1-30): HTTP transport and configuration with no logic.
- The five textstat calls (main.py:33-37): the formulas, tokenisation and syllable counting live in that library, which is not part of this model; the scores are unconstrained inputs of `AnalyzeText`.
- Classify.AverageGrade: computed in exact reals; the floating-point rounding of the two additions in `fog + smog + ari` and of the division `/ 3`, which can move an average that is mathematically on a bound (6, 9, 12, 16) just across it, is not captured.
- Floating-point special values: reals have no NaN and no infinities, so neither is modelled. A NaN score fails every comparison in the Python ladders (a NaN Flesch score gives Very Difficult, a NaN average grade Graduate / Research, a NaN Dale-Chall score Simple Vocabulary, a NaN Fog score Simple unless SMOG exceeds 14). An infinite score falls in the extreme band of its ladder, and opposite infinities among Fog, SMOG and ARI (`inf + -inf`) make a NaN average, which gives Graduate / Research.
- The JSON serialisation of the response: `Analysis` is the record, not its encoding.
