/**
 The rubric registry of the survey: the three question sections, their answer
 scales and the index sets that say which question belongs to which subscale.
 Everything here is a constant; the lemmas record the consistency facts the
 scoring engine relies on without checking them at run time.
 */
module Questions {

  /** One point of an answer scale: the stored value and the caption shown for it. */
  datatype ScalePoint = ScalePoint(value: int, caption: string)

  // Section 1: childhood emotional invalidation, answered on a 1..5 frequency scale.
  const InvalidationQuestions: seq<string> := [
    "My parents/caregivers acknowledged my feelings when I was upset.",
    "When I was sad, I was told I was overreacting.",
    "My family encouraged me to express my emotions openly.",
    "I was told to stop crying or \"toughen up\" when I was emotional.",
    "My parents/caregivers listened to me when I needed to talk about my feelings.",
    "My feelings were dismissed as unimportant by my family.",
    "I felt comfortable sharing my emotions at home.",
    "I was made to feel ashamed for expressing emotions.",
    "My family respected my emotional boundaries.",
    "I was punished or criticized for showing negative emotions.",
    "My parents/caregivers tried to understand how I felt.",
    "I learned to hide my true feelings from my family."
  ]

  const InvalidationScale: seq<ScalePoint> := [
    ScalePoint(1, "Never"),
    ScalePoint(2, "Rarely"),
    ScalePoint(3, "Sometimes"),
    ScalePoint(4, "Often"),
    ScalePoint(5, "Always")
  ]

  /** Questions where a higher answer means MORE validation; they are reverse-scored. */
  const InvalidationReverseItems: seq<int> := [0, 2, 4, 6, 8, 10]

  // Section 2: attachment style, answered on a 1..5 agreement scale.
  const AttachmentQuestions: seq<string> := [
    "I find it easy to trust and depend on others.",
    "I often worry that my partner or close friends don't really love me.",
    "I feel comfortable getting emotionally close to others.",
    "I prefer to keep my emotional distance from people.",
    "I worry that others will abandon me if they get to know the real me.",
    "I find it relatively easy to get close to others.",
    "I am comfortable having others depend on me.",
    "I often worry about being rejected in relationships.",
    "I feel uncomfortable when anyone gets too emotionally close.",
    "My independence is more important to me than my relationships."
  ]

  const AttachmentScale: seq<ScalePoint> := [
    ScalePoint(1, "Strongly Disagree"),
    ScalePoint(2, "Disagree"),
    ScalePoint(3, "Neutral"),
    ScalePoint(4, "Agree"),
    ScalePoint(5, "Strongly Agree")
  ]

  const AttachmentSecureItems: seq<int> := [0, 2, 5, 6]
  const AttachmentAnxiousItems: seq<int> := [1, 4, 7]
  const AttachmentAvoidantItems: seq<int> := [3, 8, 9]

  // Section 3: emotion regulation, answered on a 1..7 agreement scale.
  const EmotionRegulationQuestions: seq<string> := [
    "When I want to feel more positive emotion, I change what I'm thinking about.",
    "I keep my emotions to myself.",
    "When I want to feel less negative emotion, I change what I'm thinking about.",
    "When I am feeling positive emotions, I am careful not to express them.",
    "When I'm faced with a stressful situation, I make myself think about it in a way that helps me stay calm.",
    "I control my emotions by not expressing them.",
    "When I want to feel more positive emotion, I change the way I'm thinking about the situation.",
    "I control my emotions by changing the way I think about the situation I'm in.",
    "When I am feeling negative emotions, I make sure not to express them.",
    "When I want to feel less negative emotion, I change the way I'm thinking about the situation."
  ]

  const EmotionRegulationScale: seq<ScalePoint> := [
    ScalePoint(1, "Strongly Disagree"),
    ScalePoint(2, "Disagree"),
    ScalePoint(3, "Slightly Disagree"),
    ScalePoint(4, "Neutral"),
    ScalePoint(5, "Slightly Agree"),
    ScalePoint(6, "Agree"),
    ScalePoint(7, "Strongly Agree")
  ]

  const ReappraisalItems: seq<int> := [0, 2, 4, 6, 7, 9]
  const SuppressionItems: seq<int> := [1, 3, 5, 8]

  /** Every index of `items` names a question of a section with `n` questions. */
  predicate IndicesBelow(items: seq<int>, n: int) {
    forall k :: 0 <= k < |items| ==> 0 <= items[k] < n
  }

  /** No question index belongs to both subscales. */
  predicate Disjoint(a: seq<int>, b: seq<int>) {
    forall k :: 0 <= k < |a| ==> a[k] !in b
  }

  /** The scale offers the values lo, lo+1, ..., hi in ascending order. */
  predicate AscendingFrom(scale: seq<ScalePoint>, lo: int, hi: int) {
    |scale| == hi - lo + 1 &&
    forall k :: 0 <= k < |scale| ==> scale[k].value == lo + k
  }

  /** Invalidation has 12 questions and the reverse set names six of them, the even ones. */
  lemma InvalidationRegistry()
    ensures |InvalidationQuestions| == 12
    ensures IndicesBelow(InvalidationReverseItems, |InvalidationQuestions|)
    ensures forall i :: 0 <= i < 12 ==> (i in InvalidationReverseItems <==> i % 2 == 0)
  {
  }

  /** The secure, anxious and avoidant sets partition the ten attachment questions. */
  lemma AttachmentPartition()
    ensures |AttachmentQuestions| == 10
    ensures Disjoint(AttachmentSecureItems, AttachmentAnxiousItems)
    ensures Disjoint(AttachmentSecureItems, AttachmentAvoidantItems)
    ensures Disjoint(AttachmentAnxiousItems, AttachmentAvoidantItems)
    ensures forall i: int ::
      (i in AttachmentSecureItems || i in AttachmentAnxiousItems || i in AttachmentAvoidantItems)
      <==> 0 <= i < |AttachmentQuestions|
  {
    forall i: int | 0 <= i < 10
      ensures i in AttachmentSecureItems || i in AttachmentAnxiousItems || i in AttachmentAvoidantItems
    {
      if i == 0 || i == 2 || i == 5 || i == 6 {
        assert AttachmentSecureItems[if i == 0 then 0 else if i == 2 then 1 else if i == 5 then 2 else 3] == i;
      } else if i == 1 || i == 4 || i == 7 {
        assert AttachmentAnxiousItems[if i == 1 then 0 else if i == 4 then 1 else 2] == i;
      } else {
        assert AttachmentAvoidantItems[if i == 3 then 0 else if i == 8 then 1 else 2] == i;
      }
    }
  }

  /** The reappraisal and suppression sets partition the ten emotion-regulation questions. */
  lemma EmotionPartition()
    ensures |EmotionRegulationQuestions| == 10
    ensures Disjoint(ReappraisalItems, SuppressionItems)
    ensures forall i: int :: (i in ReappraisalItems || i in SuppressionItems) <==> 0 <= i < |EmotionRegulationQuestions|
  {
    forall i: int | 0 <= i < 10
      ensures i in ReappraisalItems || i in SuppressionItems
    {
      if i in {0, 2, 4, 6} {
        assert ReappraisalItems[i / 2] == i;
      } else if i == 7 || i == 9 {
        assert ReappraisalItems[if i == 7 then 4 else 5] == i;
      } else {
        assert SuppressionItems[if i == 1 then 0 else if i == 3 then 1 else if i == 5 then 2 else 3] == i;
      }
    }
  }

  /** The two Likert scales run 1..5 and the emotion scale runs 1..7, each ascending. */
  lemma ScalesAscending()
    ensures AscendingFrom(InvalidationScale, 1, 5)
    ensures AscendingFrom(AttachmentScale, 1, 5)
    ensures AscendingFrom(EmotionRegulationScale, 1, 7)
  {
  }

  /** No subscale is empty, so the engine's zero-size guards never fire with this registry. */
  lemma SubscalesNonEmpty()
    ensures |AttachmentSecureItems| == 4 && |AttachmentAnxiousItems| == 3 && |AttachmentAvoidantItems| == 3
    ensures |ReappraisalItems| == 6 && |SuppressionItems| == 4
  {
  }

  /** The survey advertises 32 questions: 12 + 10 + 10. */
  lemma QuestionCount()
    ensures |InvalidationQuestions| + |AttachmentQuestions| + |EmotionRegulationQuestions| == 32
  {
  }
}
