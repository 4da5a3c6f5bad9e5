/** The records the application passes around: emotion entries, goals, feedback
    and the result of the pattern analysers. Points in time are milliseconds
    since the Unix epoch, as `Date.getTime()` gives them. */
module Types {

  type Millis = int

  /** A value that may be missing (`null`, `undefined` or a falsy field). */
  datatype Option<T> = None | Some(value: T)

  /** One day in milliseconds (1000 * 60 * 60 * 24). */
  const MsPerDay: int := 86400000

  /** The emotion field. The declared type admits five literals ("very-sad",
      "sad", "neutral", "happy", "very-happy"), each with its own constructor;
      entries read back from storage can carry any other string, which
      `Unlisted` keeps. `Unlisted` never holds one of the five literals: such a
      string is always read as its own constructor. */
  datatype Emotion = VerySad | Sad | Neutral | Happy | VeryHappy | Unlisted(name: string)
  {
    predicate Listed() { !Unlisted? }
  }

  /** The shared score table: very-sad 1 .. very-happy 5. */
  function ListedScore(e: Emotion): (r: int)
    requires e.Listed()
    ensures 1 <= r <= 5
    ensures e == VerySad <==> r == 1
    ensures e == VeryHappy <==> r == 5
  {
    match e
    case VerySad => 1
    case Sad => 2
    case Neutral => 3
    case Happy => 4
    case VeryHappy => 5
  }

  datatype EmotionEntry = EmotionEntry(
    id: string,
    date: Millis,
    emotion: Emotion,
    intensity: int,   // annotated 1-10, not enforced anywhere
    mood: string,
    note: string)

  /** Every emotion is one of the five of the score table, as the declared
      type of the field promises. */
  predicate AllListed(es: seq<EmotionEntry>)
  {
    forall i :: 0 <= i < |es| ==> es[i].emotion.Listed()
  }

  datatype Category = Health | Work | Personal | Relationship | Learning

  datatype GoalStatus = Active | Completed | Paused

  datatype Goal = Goal(
    id: string,
    title: string,
    description: string,
    targetDate: Millis,
    progress: int,    // annotated 0-100; only the upper bound is enforced
    category: Category,
    status: GoalStatus,
    createdAt: Millis)

  datatype FeedbackType = Insight | Encouragement | Suggestion | Warning

  /** Coaching feedback; confidence is annotated 0-1. */
  datatype AIFeedback = AIFeedback(timestamp: Millis, message: string, kind: FeedbackType, confidence: real)

  datatype PatternAnalysis = PatternAnalysis(
    emotionalTrend: string,
    moodPeaks: seq<string>,
    moodDips: seq<string>,
    recommendations: seq<string>,
    insights: seq<string>)

  /** The ranges the type declarations annotate in comments. */
  predicate AnnotatedEntry(e: EmotionEntry) { 1 <= e.intensity <= 10 }
  predicate AnnotatedGoal(g: Goal) { 0 <= g.progress <= 100 }
  predicate AnnotatedFeedback(f: AIFeedback) { 0.0 <= f.confidence <= 1.0 }
}
