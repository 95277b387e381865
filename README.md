# MindScope scoring engine in Dafny

MindScope collects answers to a three-part psychology survey. Part one covers childhood emotional invalidation (12 questions, 1..5). Part two covers attachment style (10 questions, 1..5). Part three covers emotion regulation (10 questions, 1..7). From the answers the engine computes a personality result. This project models that engine (`analyzePersonality`) and the rubric tables it reads, and proves what the engine promises about the result.

- `questions.dfy` (module `Questions`): the rubric registry as constants. It holds the question lists, the answer scales, the reverse-scored invalidation items and the subscale index sets. Lemmas state the consistency facts the engine relies on: valid indices, disjoint subscales that cover every question, ascending scales, non-empty subscales and 32 questions in all.
- `personality.dfy` (module `Personality`): the engine. The pure functions (`Filter`, `Tally`, `InvalidationPercent`, `LevelOf`, `Average`, `StyleOf`, `TendencyOf`, `Round1`, `Summary`, `Analyze`) are the specification. `AnalyzePersonality` is the engine as the program runs it. It makes one accumulating loop per section (`SumInvalidation`, `SumAttachment`, `SumEmotion`), then runs the if-chains, then pushes the summary sentences and joins them. It is proved to return exactly `Analyze(responses)`.
- `properties.dfy` (module `PersonalityProperties`): lemmas about `Analyze` and its parts. They cover bounds, bucket boundaries, the attachment tie-break, the emotion margin, rounding, the summary text, and independence from answer order and from other sections.

Arithmetic is exact (`real`). `Math.round(x * 10) / 10` is modelled as `floor(10x + 1/2) / 10`. That matches JavaScript's rounding, where half-way cases go towards positive infinity.

Two facts about the code shape the model:
- The emotion tendency is decided on the unrounded averages (server/personality.js:63-69); only the stored scores are rounded (lines 97-98).
- The engine has no input validation; it accepts any answer value and any question index. So `Analyze` is total, and the answer ranges appear only as preconditions of the bounds lemmas.

An item's section is the key compared at server/personality.js:14, 34 and 55. `Section` gives the keys "invalidation", "attachment" and "emotion" their own constructors; every other key is `Other(key)`, whose key type `OtherKey` excludes those three, so each key has exactly one encoding.

The result's label fields (`invalidationLevel`, `attachmentStyle`, `emotionRegulationTendency`) hold the enums `Level`, `Style` and `Tendency`. The strings the source stores for them ('Low', 'Secure', 'Cognitive Reappraisal', ...) are `LevelName`, `StyleName` and `TendencyName` of those enums; `LabelsDistinct` shows the mapping is one-to-one, so nothing is lost.

## Model

| member | source | states |
|---|---|---|
| `Personality.Filter` | server/personality.js:14 | every kept item is of the requested section and comes from the input, and as many are kept as the input holds items of that section (`SectionSize`) |
| `PersonalityProperties.FilterCount` | server/personality.js:14 | each item of the requested section is kept exactly as often as it occurs in the input, and no item of another section is kept |
| `Personality.Weigh` | server/personality.js:18-22 | one answer's contribution: `6 - answer` for a reverse-scored index, the answer itself otherwise, and 0 outside a subscale's set; its bounds are stated by `InvalidationTotalBounds` and `TallyOutsideSubscale` |
| `Personality.Tally` | server/personality.js:17-24 | the running total of a `forEach`; `SumInvalidation`, `SumAttachment` and `SumEmotion` are proved to compute it, and `TallyPermutation` shows it ignores order |
| `Personality.InvalidationPercent` | server/personality.js:26-27 | total over five times the answer count, times 100, or 0 with no answers; bounded by `InvalidationPercentBounds` |
| `Personality.LevelOf` | server/personality.js:28-31 | the level bucket; characterised by `LevelBuckets`, `LevelMonotone` and `LevelByIntegers` |
| `Personality.Average` | server/personality.js:44-46 | a subscale sum over its set size, or 0 for an empty set (also lines 63-64); `RegistryAverages` and `UnansweredSubscaleIsZero` state its values |
| `Personality.StyleOf` | server/personality.js:48-52 | the attachment style by equality with the maximum; characterised by `StyleTieBreak` |
| `Personality.TendencyOf` | server/personality.js:66-69 | the emotion tendency with the 0.5 margin; characterised by `TendencyMargin` |
| `Personality.Round1` | server/personality.js:93-98 | `Math.round(x * 10) / 10`; its properties are `Round1Near`, `Round1Monotone`, `Round1Exact` and `Round1Zero` |
| `Personality.InvalidationSentence` | server/personality.js:74 | the first summary sentence with the lower-cased level; `LevelWord` states the embedded word |
| `Personality.AttachmentSentence` | server/personality.js:76-82 | the sentence chosen by the style; `SummaryShape` places it second |
| `Personality.EmotionSentence` | server/personality.js:84-90 | the sentence chosen by the tendency; `SummaryShape` places it third |
| `Personality.Join` | server/personality.js:100 | `Array.prototype.join`; `JoinThree` states its result for three parts |
| `Personality.Summary` | server/personality.js:72-100 | the three sentences joined by spaces; characterised by `SummaryShape` |
| `Personality.Analyze` | server/personality.js:12-101 | the result record as a function of the input; `AnalyzePersonality` is proved to return it, and the `PersonalityProperties` lemmas state its properties |
| `Personality.ReverseScore` | server/personality.js:20 | `6 - a` maps the scale 1..5 onto itself and turns answers below the midpoint into answers above it |
| `Personality.SumInvalidation` | server/personality.js:15-24 | the invalidation loop's total is the sum of the reverse-scored contributions (`6 - answer` for indices in the reverse set, `answer` otherwise) |
| `Personality.SumAttachment` | server/personality.js:36-41 | each attachment total is the sum of the answers whose index lies in that subscale's set |
| `Personality.SumEmotion` | server/personality.js:57-61 | the reappraisal and suppression totals are the sums of the answers whose index lies in each set |
| `Personality.Max3` | server/personality.js:49 | the maximum is at least each average and equals one of them |
| `Personality.LowerCase` | server/personality.js:74 | lower-casing keeps the length and maps each ASCII capital to its small letter |
| `Personality.AnalyzePersonality` | server/personality.js:12-102 | the imperative engine returns exactly the specified result record `Analyze(responses)` |
| `PersonalityProperties.ReverseScoreInvolution` | server/personality.js:20 | reverse scoring undoes itself and maps 1..5 to 5..1 |
| `PersonalityProperties.InvalidationTotalBounds` | server/personality.js:17-24 | with answers in 1..5 every contribution is in 1..5, so `count <= total <= 5*count` |
| `PersonalityProperties.InvalidationPercentBounds` | server/personality.js:26-27 | the percentage is 0 with no answers and otherwise lies in [20, 100] for totals in range |
| `PersonalityProperties.LevelBuckets` | server/personality.js:28-31 | Low iff percent <= 33, Moderate iff 33 < percent <= 66, High iff percent > 66; boundaries go to the lower bucket |
| `PersonalityProperties.LevelMonotone` | server/personality.js:28-31 | a higher percentage never gives a lower level |
| `PersonalityProperties.LevelByIntegers` | server/personality.js:26-31 | the bucket tests on exact integers: Low iff `100*total <= 33*5*count`, High iff `100*total > 66*5*count` |
| `PersonalityProperties.Round1Near` | server/personality.js:93-98 | one-decimal rounding moves a value by less than 0.05 below or at most 0.05 above |
| `PersonalityProperties.Round1Monotone` | server/personality.js:93-98 | rounding preserves order |
| `PersonalityProperties.Round1Exact` | server/personality.js:93-98 | a value with one decimal is left unchanged by rounding |
| `PersonalityProperties.Round1Zero` | server/personality.js:93 | zero rounds to zero |
| `PersonalityProperties.InvalidationScoreBounds` | server/personality.js:26-27 | with invalidation answers in 1..5 the stored invalidation score lies in [0, 100] |
| `PersonalityProperties.TallyOutsideSubscale` | server/personality.js:37-41 | answers whose index is outside a subscale's set add nothing to its total |
| `PersonalityProperties.UnansweredSubscaleIsZero` | server/personality.js:44-46 | a subscale with no answered question averages exactly 0 |
| `PersonalityProperties.RegistryAverages` | server/personality.js:44-46 | the averages divide by the index-set sizes 4, 3, 3, 6 and 4, not by the number of answers |
| `PersonalityProperties.StyleTieBreak` | server/personality.js:48-52 | Secure iff its average is maximal; Anxious iff it strictly beats Secure and ties or beats Avoidant; Avoidant iff it strictly beats both; the winner's average is the maximum |
| `PersonalityProperties.AttachmentOutcome` | server/personality.js:48-52 | the stored style is Secure exactly when secure's average is maximal, three equal averages give Secure, and the score is the winner's average rounded (line 96) |
| `PersonalityProperties.TendencyMargin` | server/personality.js:66-69 | Cognitive Reappraisal iff reappraisal > suppression + 0.5, Expressive Suppression iff suppression > reappraisal + 0.5, Balanced iff neither; the first two never hold together |
| `PersonalityProperties.EmotionOutcome` | server/personality.js:63-69 | the stored tendency is decided on the unrounded averages, and the stored scores are those averages rounded (lines 97-98) |
| `PersonalityProperties.LabelsDistinct` | server/personality.js:29-69 | `LevelName`, `StyleName` and `TendencyName` give the source's label strings and distinguish the levels, styles and tendencies |
| `PersonalityProperties.JoinThree` | server/personality.js:100 | joining three parts with a separator puts it exactly once between neighbours |
| `PersonalityProperties.LevelWord` | server/personality.js:74 | the first sentence embeds the level as "low", "moderate" or "high" |
| `PersonalityProperties.SummaryShape` | server/personality.js:72-100 | the summary is the invalidation, attachment and emotion sentences, in that order, separated by single spaces, each chosen by its classification |
| `PersonalityProperties.TallyPermutation` | server/personality.js:17-24 | a section total does not depend on the order of the answers |
| `PersonalityProperties.FilterPermutation` | server/personality.js:14 | reordering the input reorders each section's answers alike |
| `PersonalityProperties.InvalidationDependsOnlyOnItsAnswers` | server/personality.js:14-31 | the invalidation score and level depend only on the multiset of invalidation answers |
| `PersonalityProperties.AttachmentDependsOnlyOnItsAnswers` | server/personality.js:34-52 | the attachment style and score depend only on the multiset of attachment answers |
| `PersonalityProperties.EmotionDependsOnlyOnItsAnswers` | server/personality.js:55-69 | the emotion scores and tendency depend only on the multiset of emotion answers |
| `PersonalityProperties.OrderIndependent` | server/personality.js:12-101 | permuting the input list changes no field of the result |
| `PersonalityProperties.OtherSectionsIgnored` | server/personality.js:14-55 | items of any other section change no field of the result |
| `PersonalityProperties.NoInvalidationAnswers` | server/personality.js:26-29 | without invalidation answers the score is 0 and the level Low |
| `PersonalityProperties.NoAttachmentAnswers` | server/personality.js:44-52 | without attachment answers every average is 0, the style is Secure and the score 0 |
| `PersonalityProperties.NoEmotionAnswers` | server/personality.js:63-69 | without emotion answers both scores are 0 and the tendency is Balanced |
| `PersonalityProperties.AlternatingInvalidationExample` | server/personality.js:17-31 | answers 5, 1, 5, 1, ... on the twelve invalidation questions give 20 percent, Low |
| `Questions.InvalidationRegistry` | server/questions.js:22-46 | 12 invalidation questions; the reverse set names exactly the even indices below 12 |
| `Questions.AttachmentPartition` | server/questions.js:50-76 | the secure, anxious and avoidant sets are pairwise disjoint and together cover exactly 0..9 |
| `Questions.EmotionPartition` | server/questions.js:80-106 | the reappraisal and suppression sets are disjoint and together cover exactly 0..9 |
| `Questions.ScalesAscending` | server/questions.js:37-101 | the invalidation and attachment scales offer 1..5 and the emotion scale 1..7, ascending |
| `Questions.SubscalesNonEmpty` | server/questions.js:74-106 | every subscale set is non-empty, so the engine's zero-size guards never fire |
| `Questions.QuestionCount` | server/questions.js:22-91 | the three sections hold 12 + 10 + 10 = 32 questions, the count the landing page advertises |

## Left out

- Express routing, MongoDB persistence, the XLSX export, the admin password check and the submission guards in server/routes/survey.js are not part of this model. They are I/O and persistence glue around the engine.
- The client pages (React rendering, timers, local storage, fetch, chart percentages) are not part of this model.
- `demographicFields` in server/questions.js is form metadata the engine never reads; it is not modelled.
- An answered item's `questionText` and `answerText` are never read by the engine, so `Response` omits them.
- IEEE-754 doubles: `/`, `* 100` and `Math.round` are modelled with exact reals. The model does not capture a rounding artefact of a double that lands next to a bucket boundary or a rounding half-way point.
- `LowerCase` covers ASCII letters only. JavaScript's `toLowerCase` is Unicode-aware, but the level names are plain ASCII.
- Average bounds (an average never exceeds the scale maximum) are not proved. They need each question to be answered at most once, and the engine does not check that; it divides each sum by the set size whatever was answered.
- Calling the engine twice with the same input gives the same result. Every member here is a deterministic function, so no lemma is needed.
- The engine's missing answer-range validation is not added to the model, since the code has none.
