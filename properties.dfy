/**
 What the scoring engine promises: bounds of the invalidation total and
 percentage, the bucket boundaries, the attachment tie-break, the emotion
 margin, the shape of the summary, and independence from the order of the
 answers and from answers of other sections.
 */
module PersonalityProperties {
  import Q = Questions
  import opened Personality

  /** Every answer lies on the scale lo..hi. */
  predicate AnswersWithin(rs: seq<Response>, lo: int, hi: int) {
    forall k :: 0 <= k < |rs| ==> lo <= rs[k].answer <= hi
  }

  // ---------------------------------------------------------------------------
  // Invalidation
  // ---------------------------------------------------------------------------

  /** Reverse scoring maps 1..5 onto 5..1 and undoes itself. */
  lemma ReverseScoreInvolution(a: int)
    ensures ReverseScore(ReverseScore(a)) == a
    ensures 1 <= a <= 5 ==> ReverseScore(a) == 5 - (a - 1)
  {
  }

  /** With answers in 1..5 each item adds between 1 and 5, so the total lies in count..5*count. */
  lemma {:induction false} InvalidationTotalBounds(answers: seq<Response>, reverse: seq<int>)
    requires AnswersWithin(answers, 1, 5)
    ensures |answers| <= Tally(answers, ReverseScored(reverse)) <= 5 * |answers|
  {
    if answers != [] {
      var last := answers[|answers| - 1];
      InvalidationTotalBounds(answers[..|answers| - 1], reverse);
      assert 1 <= Weigh(ReverseScored(reverse), last) <= 5;
    }
  }

  /** Multiplying both sides by a positive number keeps their order. */
  lemma ScaleByPositive(a: real, b: real, c: real)
    requires c > 0.0
    ensures a <= b <==> a * c <= b * c
  {
    assert b * c - a * c == (b - a) * c;
  }

  /** A quotient by a positive number is at most `k` exactly when the dividend is at most `k` times the divisor. */
  lemma QuotientAtMost(x: real, y: real, k: real)
    requires y > 0.0
    ensures x / y <= k <==> x <= k * y
  {
    ScaleByPositive(x / y, k, y);
    assert (x / y) * y == x;
  }

  /** A quotient by a positive number is at least `k` exactly when the dividend is at least `k` times the divisor. */
  lemma QuotientAtLeast(x: real, y: real, k: real)
    requires y > 0.0
    ensures k <= x / y <==> k * y <= x
  {
    ScaleByPositive(k, x / y, y);
    assert (x / y) * y == x;
  }

  /** The percentage is 0 without answers and otherwise lies in [20, 100] for totals in range. */
  lemma InvalidationPercentBounds(total: int, count: nat)
    requires count <= total <= 5 * count
    ensures count == 0 ==> InvalidationPercent(total, count) == 0.0
    ensures count > 0 ==> 20.0 <= InvalidationPercent(total, count) <= 100.0
  {
    if count > 0 {
      var t, c := total as real, count as real;
      var max := (count * 5) as real;
      assert max == 5.0 * c;
      assert InvalidationPercent(total, count) == (t / max) * 100.0;
      QuotientAtMost(t, max, 1.0);
      QuotientAtLeast(t, max, 0.2);
    }
  }

  /** The three buckets, stated in full; boundary values fall into the lower bucket. */
  lemma LevelBuckets(percent: real)
    ensures LevelOf(percent) == Low <==> percent <= 33.0
    ensures LevelOf(percent) == Moderate <==> 33.0 < percent <= 66.0
    ensures LevelOf(percent) == High <==> 66.0 < percent
  {
  }

  function LevelRank(l: Level): nat {
    match l
    case Low => 0
    case Moderate => 1
    case High => 2
  }

  /** A higher percentage never yields a lower level. */
  lemma LevelMonotone(p: real, q: real)
    requires p <= q
    ensures LevelRank(LevelOf(p)) <= LevelRank(LevelOf(q))
  {
  }

  /** The bucket tests on integers: percent <= 33 iff 100*total <= 33*5*count, and likewise for 66. */
  lemma LevelByIntegers(total: int, count: nat)
    requires count > 0
    ensures LevelOf(InvalidationPercent(total, count)) == Low <==> 100 * total <= 33 * 5 * count
    ensures LevelOf(InvalidationPercent(total, count)) == High <==> 100 * total > 66 * 5 * count
  {
    var t, c := total as real, count as real;
    var max := (count * 5) as real;
    assert max == 5.0 * c;
    assert InvalidationPercent(total, count) == (t / max) * 100.0;
    QuotientAtMost(t, max, 0.33);
    QuotientAtMost(t, max, 0.66);
  }

  // ---------------------------------------------------------------------------
  // Rounding to one decimal
  // ---------------------------------------------------------------------------

  /** Rounding never moves a value by more than half a tenth. */
  lemma Round1Near(x: real)
    ensures x - 0.05 < Round1(x) <= x + 0.05
  {
    var f := (x * 10.0 + 0.5).Floor;
    assert f as real <= x * 10.0 + 0.5 < f as real + 1.0;
  }

  /** Rounding preserves order. */
  lemma Round1Monotone(x: real, y: real)
    requires x <= y
    ensures Round1(x) <= Round1(y)
  {
    assert (x * 10.0 + 0.5).Floor <= (y * 10.0 + 0.5).Floor;
  }

  /** A value that already has one decimal is left unchanged. */
  lemma Round1Exact(k: int)
    ensures Round1(k as real / 10.0) == k as real / 10.0
  {
    assert (k as real / 10.0) * 10.0 + 0.5 == k as real + 0.5;
    assert (k as real + 0.5).Floor == k;
  }

  /** Zero rounds to zero. */
  lemma Round1Zero()
    ensures Round1(0.0) == 0.0
  {
    assert (0.0 * 10.0 + 0.5).Floor == 0;
  }

  /** With invalidation answers in 1..5 the stored score lies in [0, 100]. */
  lemma InvalidationScoreBounds(rs: seq<Response>)
    requires AnswersWithin(Filter(rs, Invalidation), 1, 5)
    ensures 0.0 <= Analyze(rs).invalidationScore <= 100.0
  {
    var answers := Filter(rs, Invalidation);
    InvalidationTotalBounds(answers, Q.InvalidationReverseItems);
    var p := InvalidationPercentOf(rs);
    InvalidationPercentBounds(Tally(answers, ReverseScored(Q.InvalidationReverseItems)), |answers|);
    Round1Monotone(0.0, p);
    Round1Monotone(p, 100.0);
    Round1Exact(0);
    Round1Exact(1000);
  }

  // ---------------------------------------------------------------------------
  // Attachment
  // ---------------------------------------------------------------------------

  /** An answer outside a subscale's index set adds nothing to it. */
  lemma {:induction false} TallyOutsideSubscale(answers: seq<Response>, items: seq<int>)
    requires forall k :: 0 <= k < |answers| ==> answers[k].questionIndex !in items
    ensures Tally(answers, Subscale(items)) == 0
  {
    if answers != [] {
      TallyOutsideSubscale(answers[..|answers| - 1], items);
    }
  }

  /** A subscale none of whose questions were answered averages exactly 0. */
  lemma UnansweredSubscaleIsZero(rs: seq<Response>, s: Section, items: seq<int>)
    requires forall r :: r in rs && r.section == s ==> r.questionIndex !in items
    ensures SectionAverage(rs, s, items) == 0.0
  {
    TallyOutsideSubscale(Filter(rs, s), items);
  }

  /**
   With this registry the averages divide by the size of each index set (4, 3, 3,
   6 and 4), whatever number of questions was answered.
   */
  lemma RegistryAverages(rs: seq<Response>)
    ensures SecureAverage(rs) == Tally(Filter(rs, Attachment), Subscale(Q.AttachmentSecureItems)) as real / 4.0
    ensures AnxiousAverage(rs) == Tally(Filter(rs, Attachment), Subscale(Q.AttachmentAnxiousItems)) as real / 3.0
    ensures AvoidantAverage(rs) == Tally(Filter(rs, Attachment), Subscale(Q.AttachmentAvoidantItems)) as real / 3.0
    ensures ReappraisalAverage(rs) == Tally(Filter(rs, Emotion), Subscale(Q.ReappraisalItems)) as real / 6.0
    ensures SuppressionAverage(rs) == Tally(Filter(rs, Emotion), Subscale(Q.SuppressionItems)) as real / 4.0
  {
    Q.SubscalesNonEmpty();
  }

  /** The average of a style's own subscale. */
  function StyleAverage(style: Style, secure: real, anxious: real, avoidant: real): real {
    match style
    case Secure => secure
    case Anxious => anxious
    case Avoidant => avoidant
  }

  /**
   The winner has the largest average, with ties going to Secure, then Anxious:
   Secure whenever its average is maximal, Anxious when it strictly beats Secure
   and is not beaten by Avoidant, Avoidant only when it strictly beats both.
   */
  lemma StyleTieBreak(secure: real, anxious: real, avoidant: real)
    ensures StyleOf(secure, anxious, avoidant) == Secure <==> secure >= anxious && secure >= avoidant
    ensures StyleOf(secure, anxious, avoidant) == Anxious <==> anxious > secure && anxious >= avoidant
    ensures StyleOf(secure, anxious, avoidant) == Avoidant <==> avoidant > secure && avoidant > anxious
    ensures StyleAverage(StyleOf(secure, anxious, avoidant), secure, anxious, avoidant) == Max3(secure, anxious, avoidant)
  {
  }

  /** The stored style and score: the maximal average (ties to Secure), rounded to one decimal. */
  lemma AttachmentOutcome(rs: seq<Response>)
    ensures var r := Analyze(rs);
      && (r.attachmentStyle == Secure <==> SecureAverage(rs) >= AnxiousAverage(rs) && SecureAverage(rs) >= AvoidantAverage(rs))
      && r.attachmentScore == Round1(StyleAverage(r.attachmentStyle, SecureAverage(rs), AnxiousAverage(rs), AvoidantAverage(rs)))
      && (SecureAverage(rs) == AnxiousAverage(rs) == AvoidantAverage(rs) ==> r.attachmentStyle == Secure)
  {
    StyleTieBreak(SecureAverage(rs), AnxiousAverage(rs), AvoidantAverage(rs));
  }

  // ---------------------------------------------------------------------------
  // Emotion regulation
  // ---------------------------------------------------------------------------

  /** Each strategy wins only by a margin above 0.5; both cannot win at once. */
  lemma TendencyMargin(reappraisal: real, suppression: real)
    ensures TendencyOf(reappraisal, suppression) == CognitiveReappraisal <==> reappraisal > suppression + 0.5
    ensures TendencyOf(reappraisal, suppression) == ExpressiveSuppression <==> suppression > reappraisal + 0.5
    ensures TendencyOf(reappraisal, suppression) == Balanced <==>
      reappraisal - suppression <= 0.5 && suppression - reappraisal <= 0.5
    ensures !(reappraisal > suppression + 0.5 && suppression > reappraisal + 0.5)
  {
  }

  /** The stored tendency is decided on the unrounded averages; the stored scores are those averages rounded. */
  lemma EmotionOutcome(rs: seq<Response>)
    ensures var r := Analyze(rs);
      && r.emotionRegulationTendency == TendencyOf(ReappraisalAverage(rs), SuppressionAverage(rs))
      && r.reappraisalScore == Round1(ReappraisalAverage(rs))
      && r.suppressionScore == Round1(SuppressionAverage(rs))
      && (r.emotionRegulationTendency == CognitiveReappraisal <==> ReappraisalAverage(rs) > SuppressionAverage(rs) + 0.5)
      && (r.emotionRegulationTendency == ExpressiveSuppression <==> SuppressionAverage(rs) > ReappraisalAverage(rs) + 0.5)
  {
    TendencyMargin(ReappraisalAverage(rs), SuppressionAverage(rs));
  }

  // ---------------------------------------------------------------------------
  // Summary
  // ---------------------------------------------------------------------------

  /** Joining three parts puts exactly one separator between neighbours. */
  lemma JoinThree(a: string, b: string, c: string, sep: string)
    ensures Join([a, b, c], sep) == a + sep + b + sep + c
  {
    assert [a, b][..1] == [a];
    assert Join([a, b], sep) == a + sep + b;
    assert [a, b, c][..2] == [a, b];
  }

  /** The stored labels tell the classifications apart. */
  lemma LabelsDistinct(l1: Level, l2: Level, s1: Style, s2: Style, t1: Tendency, t2: Tendency)
    ensures LevelName(l1) == LevelName(l2) ==> l1 == l2
    ensures StyleName(s1) == StyleName(s2) ==> s1 == s2
    ensures TendencyName(t1) == TendencyName(t2) ==> t1 == t2
  {
  }

  /** The level appears in lower case in the first sentence. */
  lemma LevelWord(l: Level)
    ensures LowerCase(LevelName(l)) == match l case Low => "low" case Moderate => "moderate" case High => "high"
  {
  }

  /** The summary: invalidation, attachment and emotion sentences, in that order, single-space separated. */
  lemma SummaryShape(rs: seq<Response>)
    ensures var r := Analyze(rs);
      r.personalitySummary ==
        InvalidationSentence(r.invalidationLevel) + " " +
        AttachmentSentence(r.attachmentStyle) + " " +
        EmotionSentence(r.emotionRegulationTendency)
  {
    var r := Analyze(rs);
    JoinThree(InvalidationSentence(r.invalidationLevel), AttachmentSentence(r.attachmentStyle),
      EmotionSentence(r.emotionRegulationTendency), " ");
  }

  // ---------------------------------------------------------------------------
  // Order independence and section independence
  // ---------------------------------------------------------------------------

  lemma {:induction false} TallyAppend(a: seq<Response>, b: seq<Response>, w: Weighting)
    ensures Tally(a + b, w) == Tally(a, w) + Tally(b, w)
  {
    if b == [] {
      assert a + b == a;
    } else {
      TallyAppend(a, b[..|b| - 1], w);
      assert (a + b)[..|a + b| - 1] == a + b[..|b| - 1];
    }
  }

  /** Taking one answer out of a list removes its weight from the total and one copy from the multiset. */
  lemma TallyRemove(b: seq<Response>, j: nat, w: Weighting)
    requires j < |b|
    ensures Tally(b, w) == Tally(b[..j] + b[j + 1..], w) + Weigh(w, b[j])
    ensures multiset(b[..j] + b[j + 1..]) == multiset(b) - multiset{b[j]}
  {
    var x := b[j];
    assert b == b[..j] + [x] + b[j + 1..];
    TallyAppend(b[..j] + [x], b[j + 1..], w);
    TallyAppend(b[..j], [x], w);
    TallyAppend(b[..j], b[j + 1..], w);
    assert [x][..0] == [];
    assert multiset(b) == multiset(b[..j]) + multiset{x} + multiset(b[j + 1..]);
  }

  /** A total does not depend on the order of the answers it sums. */
  lemma {:induction false} TallyPermutation(a: seq<Response>, b: seq<Response>, w: Weighting)
    requires multiset(a) == multiset(b)
    ensures Tally(a, w) == Tally(b, w)
    decreases |a|
  {
    if a == [] {
      assert |b| == |multiset(b)| == 0;
    } else {
      var x := a[|a| - 1];
      var a' := a[..|a| - 1];
      assert multiset(a') == multiset(a) - multiset{x} by {
        assert a == a' + [x];
        assert multiset(a) == multiset(a') + multiset{x};
      }
      assert x in multiset(b);
      var j :| 0 <= j < |b| && b[j] == x;
      var b' := b[..j] + b[j + 1..];
      TallyRemove(b, j, w);
      assert multiset(a') == multiset(b');
      TallyPermutation(a', b', w);
      assert Tally(a, w) == Tally(a', w) + Weigh(w, x);
    }
  }

  lemma {:induction false} FilterAppend(a: seq<Response>, b: seq<Response>, s: Section)
    ensures Filter(a + b, s) == Filter(a, s) + Filter(b, s)
  {
    if b == [] {
      assert a + b == a;
    } else {
      FilterAppend(a, b[..|b| - 1], s);
      assert (a + b)[..|a + b| - 1] == a + b[..|b| - 1];
    }
  }

  /** Filtering keeps every copy of an item of the section and no item of another section. */
  lemma {:induction false} FilterCount(rs: seq<Response>, s: Section, x: Response)
    ensures multiset(Filter(rs, s))[x] == if x.section == s then multiset(rs)[x] else 0
  {
    if rs != [] {
      FilterCount(rs[..|rs| - 1], s, x);
      assert rs == rs[..|rs| - 1] + [rs[|rs| - 1]];
    }
  }

  /** Reordering the input reorders each section's answers the same way. */
  lemma FilterPermutation(a: seq<Response>, b: seq<Response>, s: Section)
    requires multiset(a) == multiset(b)
    ensures multiset(Filter(a, s)) == multiset(Filter(b, s))
  {
    forall x: Response
      ensures multiset(Filter(a, s))[x] == multiset(Filter(b, s))[x]
    {
      FilterCount(a, s, x);
      FilterCount(b, s, x);
    }
  }

  /** The invalidation fields depend only on the multiset of invalidation answers. */
  lemma InvalidationDependsOnlyOnItsAnswers(a: seq<Response>, b: seq<Response>)
    requires multiset(Filter(a, Invalidation)) == multiset(Filter(b, Invalidation))
    ensures Analyze(a).invalidationScore == Analyze(b).invalidationScore
    ensures Analyze(a).invalidationLevel == Analyze(b).invalidationLevel
  {
    var fa, fb := Filter(a, Invalidation), Filter(b, Invalidation);
    TallyPermutation(fa, fb, ReverseScored(Q.InvalidationReverseItems));
    assert |fa| == |multiset(fa)| == |multiset(fb)| == |fb|;
    assert InvalidationPercentOf(a) == InvalidationPercentOf(b);
  }

  /** The attachment fields depend only on the multiset of attachment answers. */
  lemma AttachmentDependsOnlyOnItsAnswers(a: seq<Response>, b: seq<Response>)
    requires multiset(Filter(a, Attachment)) == multiset(Filter(b, Attachment))
    ensures Analyze(a).attachmentStyle == Analyze(b).attachmentStyle
    ensures Analyze(a).attachmentScore == Analyze(b).attachmentScore
  {
    var fa, fb := Filter(a, Attachment), Filter(b, Attachment);
    TallyPermutation(fa, fb, Subscale(Q.AttachmentSecureItems));
    TallyPermutation(fa, fb, Subscale(Q.AttachmentAnxiousItems));
    TallyPermutation(fa, fb, Subscale(Q.AttachmentAvoidantItems));
    assert SecureAverage(a) == SecureAverage(b);
    assert AnxiousAverage(a) == AnxiousAverage(b);
    assert AvoidantAverage(a) == AvoidantAverage(b);
  }

  /** The emotion-regulation fields depend only on the multiset of emotion answers. */
  lemma EmotionDependsOnlyOnItsAnswers(a: seq<Response>, b: seq<Response>)
    requires multiset(Filter(a, Emotion)) == multiset(Filter(b, Emotion))
    ensures Analyze(a).reappraisalScore == Analyze(b).reappraisalScore
    ensures Analyze(a).suppressionScore == Analyze(b).suppressionScore
    ensures Analyze(a).emotionRegulationTendency == Analyze(b).emotionRegulationTendency
  {
    var fa, fb := Filter(a, Emotion), Filter(b, Emotion);
    TallyPermutation(fa, fb, Subscale(Q.ReappraisalItems));
    TallyPermutation(fa, fb, Subscale(Q.SuppressionItems));
    assert ReappraisalAverage(a) == ReappraisalAverage(b);
    assert SuppressionAverage(a) == SuppressionAverage(b);
  }

  /** Permuting the input list changes no field of the result. */
  lemma OrderIndependent(a: seq<Response>, b: seq<Response>)
    requires multiset(a) == multiset(b)
    ensures Analyze(a) == Analyze(b)
  {
    FilterPermutation(a, b, Invalidation);
    FilterPermutation(a, b, Attachment);
    FilterPermutation(a, b, Emotion);
    InvalidationDependsOnlyOnItsAnswers(a, b);
    AttachmentDependsOnlyOnItsAnswers(a, b);
    EmotionDependsOnlyOnItsAnswers(a, b);
  }

  /** A list with no item of section `s` has nothing to filter. */
  lemma FilterWithoutSection(rs: seq<Response>, s: Section)
    requires forall k :: 0 <= k < |rs| ==> rs[k].section != s
    ensures Filter(rs, s) == []
  {
  }

  /** Items whose section is none of the three scored sections change no field. */
  lemma OtherSectionsIgnored(rs: seq<Response>, extra: seq<Response>)
    requires forall k :: 0 <= k < |extra| ==> extra[k].section.Other?
    ensures Analyze(rs + extra) == Analyze(rs)
  {
    FilterAppend(rs, extra, Invalidation);
    FilterAppend(rs, extra, Attachment);
    FilterAppend(rs, extra, Emotion);
    FilterWithoutSection(extra, Invalidation);
    FilterWithoutSection(extra, Attachment);
    FilterWithoutSection(extra, Emotion);
    assert Filter(rs + extra, Invalidation) == Filter(rs, Invalidation);
    assert Filter(rs + extra, Attachment) == Filter(rs, Attachment);
    assert Filter(rs + extra, Emotion) == Filter(rs, Emotion);
  }

  // ---------------------------------------------------------------------------
  // Degenerate and worked examples
  // ---------------------------------------------------------------------------

  /** Without invalidation answers the percentage is 0, so the score is 0 and the level Low. */
  lemma NoInvalidationAnswers(rs: seq<Response>)
    requires forall k :: 0 <= k < |rs| ==> rs[k].section != Invalidation
    ensures Analyze(rs).invalidationScore == 0.0 && Analyze(rs).invalidationLevel == Low
  {
    FilterWithoutSection(rs, Invalidation);
    assert InvalidationPercentOf(rs) == 0.0;
    Round1Zero();
  }

  /** Without attachment answers every average is 0: the tie goes to Secure and the score is 0. */
  lemma NoAttachmentAnswers(rs: seq<Response>)
    requires forall k :: 0 <= k < |rs| ==> rs[k].section != Attachment
    ensures Analyze(rs).attachmentStyle == Secure && Analyze(rs).attachmentScore == 0.0
  {
    FilterWithoutSection(rs, Attachment);
    assert SecureAverage(rs) == AnxiousAverage(rs) == AvoidantAverage(rs) == 0.0;
    assert Max3(0.0, 0.0, 0.0) == 0.0;
    Round1Zero();
  }

  /** Without emotion answers both averages are 0: Balanced, with both scores 0. */
  lemma NoEmotionAnswers(rs: seq<Response>)
    requires forall k :: 0 <= k < |rs| ==> rs[k].section != Emotion
    ensures Analyze(rs).emotionRegulationTendency == Balanced
    ensures Analyze(rs).reappraisalScore == 0.0 && Analyze(rs).suppressionScore == 0.0
  {
    FilterWithoutSection(rs, Emotion);
    assert ReappraisalAverage(rs) == SuppressionAverage(rs) == 0.0;
    Round1Zero();
  }

  lemma {:induction false} FilterWholeSection(rs: seq<Response>, s: Section)
    requires forall k :: 0 <= k < |rs| ==> rs[k].section == s
    ensures Filter(rs, s) == rs
  {
    if rs != [] {
      FilterWholeSection(rs[..|rs| - 1], s);
    }
  }

  lemma {:induction false} TallyOfOnes(rs: seq<Response>, w: Weighting)
    requires forall k :: 0 <= k < |rs| ==> Weigh(w, rs[k]) == 1
    ensures Tally(rs, w) == |rs|
  {
    if rs != [] {
      TallyOfOnes(rs[..|rs| - 1], w);
    }
  }

  /**
   Answers 5, 1, 5, 1, ... on the twelve invalidation questions: every reverse-scored
   5 and every plain 1 adds 1, so the total is 12 of 60, that is 20 percent, Low.
   */
  lemma AlternatingInvalidationExample()
    ensures var rs := seq(12, k => Response(Invalidation, k, if k % 2 == 0 then 5 else 1));
      InvalidationPercentOf(rs) == 20.0 && LevelOf(InvalidationPercentOf(rs)) == Low
  {
    var rs := seq(12, k => Response(Invalidation, k, if k % 2 == 0 then 5 else 1));
    Q.InvalidationRegistry();
    FilterWholeSection(rs, Invalidation);
    TallyOfOnes(rs, ReverseScored(Q.InvalidationReverseItems));
  }
}
