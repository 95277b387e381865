/**
 The scoring engine: turns a respondent's flat list of answered items into a
 personality result (invalidation level, attachment style, emotion-regulation
 tendency, scores and a narrative summary).

 The pure functions below are the specification; `AnalyzePersonality` is the
 engine as the program runs it, accumulating totals in loops, and is proved to
 return exactly `Analyze(responses)`. Arithmetic is exact (`real`).
 */
module Personality {
  import Q = Questions

  /** A section key other than the three the engine scores. */
  type OtherKey = k: string | k != "invalidation" && k != "attachment" && k != "emotion" witness ""

  /**
   The section an answered item belongs to: the keys "invalidation", "attachment"
   and "emotion" are the three scored sections; any other key is carried as `Other`.
   */
  datatype Section = Invalidation | Attachment | Emotion | Other(key: OtherKey)

  /** One answered item: its section, the 0-based question index and the chosen scale value. */
  datatype Response = Response(section: Section, questionIndex: int, answer: int)

  datatype Level = Low | Moderate | High
  datatype Style = Secure | Anxious | Avoidant
  datatype Tendency = CognitiveReappraisal | ExpressiveSuppression | Balanced

  /**
   The result record. The three label fields hold the enums above; the strings the
   source stores for them are `LevelName`, `StyleName` and `TendencyName` of these.
   */
  datatype PersonalityResult = PersonalityResult(
    invalidationScore: real,
    invalidationLevel: Level,
    attachmentStyle: Style,
    attachmentScore: real,
    reappraisalScore: real,
    suppressionScore: real,
    emotionRegulationTendency: Tendency,
    personalitySummary: string)

  // ---------------------------------------------------------------------------
  // Selecting and summing answers
  // ---------------------------------------------------------------------------

  /** How many items of `rs` belong to section `s`. */
  function SectionSize(rs: seq<Response>, s: Section): nat {
    if rs == [] then 0 else SectionSize(rs[..|rs| - 1], s) + (if rs[|rs| - 1].section == s then 1 else 0)
  }

  /**
   The answers of one section, in input order (the source's `filter` on `section`):
   only items of section `s`, as many as `rs` holds. `FilterCount` shows that each
   item of the section is kept as often as it occurs.
   */
  function Filter(rs: seq<Response>, s: Section): (r: seq<Response>)
    ensures |r| <= |rs|
    ensures forall k :: 0 <= k < |r| ==> r[k].section == s && r[k] in rs
    ensures |r| == SectionSize(rs, s)
  {
    if rs == [] then []
    else Filter(rs[..|rs| - 1], s) + (if rs[|rs| - 1].section == s then [rs[|rs| - 1]] else [])
  }

  /**
   How one answer contributes to a running total: an invalidation item
   counts `6 - answer` when its index is reverse-scored and `answer` otherwise;
   a subscale counts `answer` for its own indices and nothing for the rest.
   */
  datatype Weighting = ReverseScored(reverse: seq<int>) | Subscale(members: seq<int>)

  /** `6 - a` flips a 1..5 answer. */
  function ReverseScore(a: int): (r: int)
    ensures 1 <= a <= 5 <==> 1 <= r <= 5
    ensures a < 3 <==> r > 3
  {
    6 - a
  }

  function Weigh(w: Weighting, r: Response): int {
    match w
    case ReverseScored(reverse) =>
      if r.questionIndex in reverse then ReverseScore(r.answer) else r.answer
    case Subscale(members) =>
      if r.questionIndex in members then r.answer else 0
  }

  /** The total the source's `forEach` accumulates over `rs`. */
  function Tally(rs: seq<Response>, w: Weighting): int {
    if rs == [] then 0 else Tally(rs[..|rs| - 1], w) + Weigh(w, rs[|rs| - 1])
  }

  // ---------------------------------------------------------------------------
  // Arithmetic and classification
  // ---------------------------------------------------------------------------

  /** Invalidation percentage: total over its maximum (five per answer), or 0 with no answers. */
  function InvalidationPercent(total: int, count: nat): real {
    var max := count * 5;
    if max > 0 then (total as real / max as real) * 100.0 else 0.0
  }

  /** The three invalidation buckets; a boundary value goes to the lower bucket. */
  function LevelOf(percent: real): Level {
    if percent <= 33.0 then Low
    else if percent <= 66.0 then Moderate
    else High
  }

  /** A subscale average: its sum over the size of its index set, or 0 for an empty set. */
  function Average(sum: int, size: nat): real {
    if size > 0 then sum as real / size as real else 0.0
  }

  /** `Math.max` of three values. */
  function Max3(a: real, b: real, c: real): (m: real)
    ensures a <= m && b <= m && c <= m
    ensures m == a || m == b || m == c
  {
    if a >= b && a >= c then a else if b >= c then b else c
  }

  /** The style whose average equals the maximum, trying secure, anxious, avoidant in turn. */
  function StyleOf(secure: real, anxious: real, avoidant: real): Style {
    var m := Max3(secure, anxious, avoidant);
    if m == secure then Secure
    else if m == anxious then Anxious
    else Avoidant
  }

  /** Emotion-regulation tendency: one strategy must lead the other by more than 0.5. */
  function TendencyOf(reappraisal: real, suppression: real): Tendency {
    if reappraisal > suppression + 0.5 then CognitiveReappraisal
    else if suppression > reappraisal + 0.5 then ExpressiveSuppression
    else Balanced
  }

  /** `Math.round(x * 10) / 10`: half-way cases round towards positive infinity. */
  function Round1(x: real): real {
    (x * 10.0 + 0.5).Floor as real / 10.0
  }

  // ---------------------------------------------------------------------------
  // Labels and summary text
  // ---------------------------------------------------------------------------

  function LevelName(l: Level): string {
    match l
    case Low => "Low"
    case Moderate => "Moderate"
    case High => "High"
  }

  function StyleName(s: Style): string {
    match s
    case Secure => "Secure"
    case Anxious => "Anxious"
    case Avoidant => "Avoidant"
  }

  function TendencyName(t: Tendency): string {
    match t
    case CognitiveReappraisal => "Cognitive Reappraisal"
    case ExpressiveSuppression => "Expressive Suppression"
    case Balanced => "Balanced"
  }

  function LowerChar(c: char): char {
    if 'A' <= c <= 'Z' then (c as int - 'A' as int + 'a' as int) as char else c
  }

  /** `toLowerCase` restricted to ASCII letters, which is all the level names use. */
  function LowerCase(s: string): (r: string)
    ensures |r| == |s|
    ensures forall k :: 0 <= k < |s| ==> r[k] == LowerChar(s[k])
  {
    if s == [] then [] else [LowerChar(s[0])] + LowerCase(s[1..])
  }

  function InvalidationSentence(l: Level): string {
    "Your childhood emotional environment shows a " + LowerCase(LevelName(l)) + " level of invalidation."
  }

  function AttachmentSentence(s: Style): string {
    match s
    case Secure =>
      "You tend to have a secure attachment style — you feel comfortable with closeness and interdependence in relationships."
    case Anxious =>
      "You show tendencies toward an anxious attachment style — you may seek high levels of closeness and worry about abandonment."
    case Avoidant =>
      "You show tendencies toward an avoidant attachment style — you may value independence and feel less comfortable with emotional closeness."
  }

  function EmotionSentence(t: Tendency): string {
    match t
    case CognitiveReappraisal =>
      "You primarily regulate emotions through cognitive reappraisal — reframing situations to change how you feel. This is generally associated with healthier emotional outcomes."
    case ExpressiveSuppression =>
      "You tend to regulate emotions through suppression — holding back the outward expression of feelings. While sometimes useful, over-reliance on this strategy may affect well-being."
    case Balanced =>
      "You use a balanced mix of cognitive reappraisal and emotional suppression strategies."
  }

  /** `Array.prototype.join`: the parts with `sep` between neighbours. */
  function Join(parts: seq<string>, sep: string): string {
    if |parts| == 0 then ""
    else if |parts| == 1 then parts[0]
    else Join(parts[..|parts| - 1], sep) + sep + parts[|parts| - 1]
  }

  function Summary(l: Level, s: Style, t: Tendency): string {
    Join([InvalidationSentence(l), AttachmentSentence(s), EmotionSentence(t)], " ")
  }

  // ---------------------------------------------------------------------------
  // The engine
  // ---------------------------------------------------------------------------

  /** A subscale's average over the answers of one section. */
  function SectionAverage(rs: seq<Response>, s: Section, items: seq<int>): real {
    Average(Tally(Filter(rs, s), Subscale(items)), |items|)
  }

  function InvalidationPercentOf(rs: seq<Response>): real {
    var answers := Filter(rs, Invalidation);
    InvalidationPercent(Tally(answers, ReverseScored(Q.InvalidationReverseItems)), |answers|)
  }

  function SecureAverage(rs: seq<Response>): real { SectionAverage(rs, Attachment, Q.AttachmentSecureItems) }
  function AnxiousAverage(rs: seq<Response>): real { SectionAverage(rs, Attachment, Q.AttachmentAnxiousItems) }
  function AvoidantAverage(rs: seq<Response>): real { SectionAverage(rs, Attachment, Q.AttachmentAvoidantItems) }
  function ReappraisalAverage(rs: seq<Response>): real { SectionAverage(rs, Emotion, Q.ReappraisalItems) }
  function SuppressionAverage(rs: seq<Response>): real { SectionAverage(rs, Emotion, Q.SuppressionItems) }

  /** The result record, as a function of the answered items. */
  function Analyze(rs: seq<Response>): PersonalityResult {
    var percent := InvalidationPercentOf(rs);
    var level := LevelOf(percent);
    var secure, anxious, avoidant := SecureAverage(rs), AnxiousAverage(rs), AvoidantAverage(rs);
    var style := StyleOf(secure, anxious, avoidant);
    var reappraisal, suppression := ReappraisalAverage(rs), SuppressionAverage(rs);
    var tendency := TendencyOf(reappraisal, suppression);
    PersonalityResult(
      Round1(percent), level,
      style, Round1(Max3(secure, anxious, avoidant)),
      Round1(reappraisal), Round1(suppression), tendency,
      Summary(level, style, tendency))
  }

  /** The invalidation loop: reverse-scored items add `6 - answer`, the others add `answer`. */
  method SumInvalidation(answers: seq<Response>) returns (total: int)
    ensures total == Tally(answers, ReverseScored(Q.InvalidationReverseItems))
  {
    total := 0;
    var i := 0;
    while i < |answers|
      invariant 0 <= i <= |answers|
      invariant total == Tally(answers[..i], ReverseScored(Q.InvalidationReverseItems))
    {
      var r := answers[i];
      if r.questionIndex in Q.InvalidationReverseItems {
        total := total + (6 - r.answer);
      } else {
        total := total + r.answer;
      }
      assert answers[..i + 1][..i] == answers[..i];
      i := i + 1;
    }
    assert answers[..i] == answers;
  }

  /** The attachment loop: each answer is added to every subscale whose set holds its index. */
  method SumAttachment(answers: seq<Response>) returns (secure: int, anxious: int, avoidant: int)
    ensures secure == Tally(answers, Subscale(Q.AttachmentSecureItems))
    ensures anxious == Tally(answers, Subscale(Q.AttachmentAnxiousItems))
    ensures avoidant == Tally(answers, Subscale(Q.AttachmentAvoidantItems))
  {
    secure, anxious, avoidant := 0, 0, 0;
    var i := 0;
    while i < |answers|
      invariant 0 <= i <= |answers|
      invariant secure == Tally(answers[..i], Subscale(Q.AttachmentSecureItems))
      invariant anxious == Tally(answers[..i], Subscale(Q.AttachmentAnxiousItems))
      invariant avoidant == Tally(answers[..i], Subscale(Q.AttachmentAvoidantItems))
    {
      var r := answers[i];
      if r.questionIndex in Q.AttachmentSecureItems { secure := secure + r.answer; }
      if r.questionIndex in Q.AttachmentAnxiousItems { anxious := anxious + r.answer; }
      if r.questionIndex in Q.AttachmentAvoidantItems { avoidant := avoidant + r.answer; }
      assert answers[..i + 1][..i] == answers[..i];
      i := i + 1;
    }
    assert answers[..i] == answers;
  }

  /** The emotion-regulation loop: each answer is added to the reappraisal and/or suppression total. */
  method SumEmotion(answers: seq<Response>) returns (reappraisal: int, suppression: int)
    ensures reappraisal == Tally(answers, Subscale(Q.ReappraisalItems))
    ensures suppression == Tally(answers, Subscale(Q.SuppressionItems))
  {
    reappraisal, suppression := 0, 0;
    var i := 0;
    while i < |answers|
      invariant 0 <= i <= |answers|
      invariant reappraisal == Tally(answers[..i], Subscale(Q.ReappraisalItems))
      invariant suppression == Tally(answers[..i], Subscale(Q.SuppressionItems))
    {
      var r := answers[i];
      if r.questionIndex in Q.ReappraisalItems { reappraisal := reappraisal + r.answer; }
      if r.questionIndex in Q.SuppressionItems { suppression := suppression + r.answer; }
      assert answers[..i + 1][..i] == answers[..i];
      i := i + 1;
    }
    assert answers[..i] == answers;
  }

  /** Pushing three parts onto an empty list yields them in push order. */
  lemma PushedInOrder(a: string, b: string, c: string)
    ensures [] + [a] + [b] + [c] == [a, b, c]
  {
  }

  /**
   The engine as the source runs it: one accumulating pass per section, then
   the if-chains, then the summary parts pushed and joined.
   */
  method AnalyzePersonality(responses: seq<Response>) returns (result: PersonalityResult)
    ensures result == Analyze(responses)
  {
    // Section 1: childhood emotional invalidation
    var invalidationAnswers := Filter(responses, Invalidation);
    var invalidationTotal := SumInvalidation(invalidationAnswers);
    var invalidationMax := |invalidationAnswers| * 5;
    var invalidationPercent :=
      if invalidationMax > 0 then (invalidationTotal as real / invalidationMax as real) * 100.0 else 0.0;
    var invalidationLevel := LevelOf(invalidationPercent);

    // Section 2: attachment style
    var secureScore, anxiousScore, avoidantScore := SumAttachment(Filter(responses, Attachment));
    var secureAvg := Average(secureScore, |Q.AttachmentSecureItems|);
    var anxiousAvg := Average(anxiousScore, |Q.AttachmentAnxiousItems|);
    var avoidantAvg := Average(avoidantScore, |Q.AttachmentAvoidantItems|);
    var maxAttachment := Max3(secureAvg, anxiousAvg, avoidantAvg);
    var attachmentStyle := StyleOf(secureAvg, anxiousAvg, avoidantAvg);

    // Section 3: emotion regulation
    var reappraisalScore, suppressionScore := SumEmotion(Filter(responses, Emotion));
    var reappraisalAvg := Average(reappraisalScore, |Q.ReappraisalItems|);
    var suppressionAvg := Average(suppressionScore, |Q.SuppressionItems|);
    var tendency := TendencyOf(reappraisalAvg, suppressionAvg);

    // Summary
    var invalidationPart := InvalidationSentence(invalidationLevel);
    var attachmentPart := AttachmentSentence(attachmentStyle);
    var emotionPart := EmotionSentence(tendency);
    var summaryParts: seq<string> := [];
    summaryParts := summaryParts + [invalidationPart];
    summaryParts := summaryParts + [attachmentPart];
    summaryParts := summaryParts + [emotionPart];

    assert invalidationPercent == InvalidationPercentOf(responses);
    PushedInOrder(invalidationPart, attachmentPart, emotionPart);
    result := PersonalityResult(
      Round1(invalidationPercent), invalidationLevel,
      attachmentStyle, Round1(maxAttachment),
      Round1(reappraisalAvg), Round1(suppressionAvg), tendency,
      Join(summaryParts, " "));
  }
}
