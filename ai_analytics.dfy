/** The earlier analyser of `aiAnalytics.ts`: the same insight texts as the
    local engine, but only over the trailing seven days, without a cap on peaks
    and dips and without a time-of-day suggestion; plus its feedback picker and
    the goal-pace evaluation. Its `calculateTrend` is the same routine as the
    local engine's and is modelled once, by `Trend.CalculateTrend`. */
module AiAnalytics {
  import opened Types
  import opened Seqs
  import opened Text
  import opened Trend
  import LocalAI

  const EmptyTrend := "아직 감정 데이터가 충분하지 않습니다."
  const NoWeekTrend := "최근 일주일 데이터가 없습니다."
  const RecordDaily := "매일 감정을 기록해보세요."
  const KeepObserving := "계속해서 자신의 감정을 관찰해보세요."

  /** The cut-off `new Date()` moved back seven days, kept inclusive. */
  function WindowStart(now: Millis): Millis
  {
    now - 7 * MsPerDay
  }

  /** The entries dated at or after the cut-off, in input order. */
  function Recent(es: seq<EmotionEntry>, now: Millis): seq<EmotionEntry>
  {
    if es == [] then []
    else
      var last := es[|es| - 1];
      Recent(es[..|es| - 1], now) + (if last.date >= WindowStart(now) then [last] else [])
  }

  lemma {:induction false} RecentSpec(es: seq<EmotionEntry>, now: Millis)
    ensures forall e :: e in Recent(es, now) <==> e in es && e.date >= WindowStart(now)
    ensures Recent(es, now) == [] <==> forall i :: 0 <= i < |es| ==> es[i].date < WindowStart(now)
    ensures |Recent(es, now)| <= |es|
  {
    if es != [] {
      var init := es[..|es| - 1];
      RecentSpec(init, now);
      assert forall e :: e in es <==> e in init || e == es[|es| - 1];
      assert forall i :: 0 <= i < |init| ==> init[i] == es[i];
    }
  }

  /** The window filter distributes over concatenation, so it keeps the
      input order and every in-window entry once per occurrence. */
  lemma {:induction false} RecentAppend(xs: seq<EmotionEntry>, ys: seq<EmotionEntry>, now: Millis)
    ensures Recent(xs + ys, now) == Recent(xs, now) + Recent(ys, now)
    decreases |ys|
  {
    if ys == [] {
      assert xs + ys == xs;
    } else {
      var ys' := ys[..|ys| - 1];
      assert (xs + ys)[..|xs + ys| - 1] == xs + ys';
      RecentAppend(xs, ys', now);
    }
  }

  /** One entry is kept exactly when it is dated at or after the cut-off. */
  lemma RecentOne(e: EmotionEntry, now: Millis)
    ensures Recent([e], now) == if e.date >= WindowStart(now) then [e] else []
  {
    assert [e][..0] == [];
  }

  /** What the analyser reads from an entry. */
  function ToRecord(e: EmotionEntry): LocalAI.MoodRecord
  {
    LocalAI.MoodRecord(e.emotion, e.date, e.mood)
  }

  function ToRecords(es: seq<EmotionEntry>): (r: seq<LocalAI.MoodRecord>)
    ensures |r| == |es|
    ensures forall i :: 0 <= i < |es| ==> r[i] == ToRecord(es[i])
  {
    seq(|es|, i requires 0 <= i < |es| => ToRecord(es[i]))
  }

  /** The recommendation list: rest advice and exercise advice only. */
  function WeeklyRecommendations(avg: real, t: Trend): seq<string>
  {
    (if avg < 3.0 then [LocalAI.RestAdvice] else [])
    + (if t == Declining then [LocalAI.ExerciseAdvice] else [])
  }

  /** The analysis of a non-empty window. */
  function AnalyzeWindow(recent: seq<LocalAI.MoodRecord>): (a: PatternAnalysis)
    requires recent != []
    ensures |a.recommendations| <= 2
  {
    var scores := LocalAI.Scores(recent);
    var avg := LocalAI.Average(scores);
    var trend := Classify(scores);
    PatternAnalysis(
      LocalAI.Narrative(trend),
      LocalAI.MoodsWithScore(recent, Max(scores)),
      LocalAI.MoodsWithScore(recent, Min(scores)),
      WeeklyRecommendations(avg, trend),
      [LocalAI.AverageInsight(avg)] + LocalAI.TrendInsight(trend))
  }

  /** `analyzeEmotionalTrend`. */
  function AnalyzeEmotionalTrend(es: seq<EmotionEntry>, now: Millis): (a: PatternAnalysis)
    requires AllListed(es)
    ensures |a.recommendations| <= 2
  {
    if es == [] then
      PatternAnalysis(EmptyTrend, [], [], [RecordDaily], [])
    else
      var recent := ToRecords(Recent(es, now));
      if recent == [] then
        PatternAnalysis(NoWeekTrend, [], [], [RecordDaily], [])
      else
        AnalyzeWindow(recent)
  }

  /** Two different fixed answers: no entries at all, and no entry in the window. */
  lemma FixedAnswers(es: seq<EmotionEntry>, now: Millis)
    requires AllListed(es)
    ensures es == [] ==> AnalyzeEmotionalTrend(es, now) == PatternAnalysis(EmptyTrend, [], [], [RecordDaily], [])
    ensures es != [] && (forall i :: 0 <= i < |es| ==> es[i].date < WindowStart(now)) ==>
              AnalyzeEmotionalTrend(es, now) == PatternAnalysis(NoWeekTrend, [], [], [RecordDaily], [])
  {
    RecentSpec(es, now);
  }

  /** An entry dated before the cut-off never changes the analysis of a
      non-empty history; one dated exactly at the cut-off takes part. */
  lemma WindowIsInclusive(es: seq<EmotionEntry>, e: EmotionEntry, now: Millis)
    requires AllListed(es + [e]) && es != []
    ensures AllListed(es)
    ensures e.date < WindowStart(now) ==> AnalyzeEmotionalTrend(es + [e], now) == AnalyzeEmotionalTrend(es, now)
    ensures e.date == WindowStart(now) ==> e in Recent(es + [e], now)
  {
    assert (es + [e])[..|es + [e]| - 1] == es;
    forall i | 0 <= i < |es| ensures es[i].emotion.Listed() {
      assert es[i] == (es + [e])[i];
    }
    if e.date < WindowStart(now) {
      assert Recent(es + [e], now) == Recent(es, now);
    }
  }

  /** Peaks list every in-window entry at the highest score and nothing else,
      with no cap: one mood per such entry, in input order. Dips likewise at
      the lowest score. */
  lemma WeeklyPeaksAndDips(recent: seq<LocalAI.MoodRecord>)
    requires recent != []
    ensures var a := AnalyzeWindow(recent);
      var top := Max(LocalAI.Scores(recent));
      |a.moodPeaks| == LocalAI.MatchCount(recent, top)
      && forall i :: 0 <= i < |recent| && LocalAI.Score(recent[i].emotion) == top ==>
           LocalAI.MatchCount(recent[..i], top) < |a.moodPeaks| && a.moodPeaks[LocalAI.MatchCount(recent[..i], top)] == recent[i].mood
    ensures var a := AnalyzeWindow(recent);
      var bottom := Min(LocalAI.Scores(recent));
      |a.moodDips| == LocalAI.MatchCount(recent, bottom)
      && forall i :: 0 <= i < |recent| && LocalAI.Score(recent[i].emotion) == bottom ==>
           LocalAI.MatchCount(recent[..i], bottom) < |a.moodDips| && a.moodDips[LocalAI.MatchCount(recent[..i], bottom)] == recent[i].mood
    ensures var a := AnalyzeWindow(recent);
      var scores := LocalAI.Scores(recent);
      (forall i :: 0 <= i < |recent| && scores[i] == Max(scores) ==> recent[i].mood in a.moodPeaks) &&
      (forall m :: m in a.moodPeaks ==> exists i :: 0 <= i < |recent| && recent[i].mood == m && scores[i] == Max(scores)) &&
      (forall i :: 0 <= i < |recent| && scores[i] == Min(scores) ==> recent[i].mood in a.moodDips) &&
      (forall m :: m in a.moodDips ==> exists i :: 0 <= i < |recent| && recent[i].mood == m && scores[i] == Min(scores))
  {
    var scores := LocalAI.Scores(recent);
    LocalAI.MoodsWithScoreSpec(recent, Max(scores));
    LocalAI.MoodsWithScoreSpec(recent, Min(scores));
    LocalAI.MoodsWithScorePositions(recent, Max(scores));
    LocalAI.MoodsWithScorePositions(recent, Min(scores));
  }

  /** At most two recommendations: rest advice exactly when the average is
      below 3, exercise advice exactly when declining; the narrative and the
      insights follow the local engine's texts. */
  lemma WeeklyInsightsAndRecommendations(recent: seq<LocalAI.MoodRecord>)
    requires recent != []
    ensures var a := AnalyzeWindow(recent);
      var scores := LocalAI.Scores(recent);
      var avg := LocalAI.Average(scores);
      var t := Classify(scores);
      (LocalAI.RestAdvice in a.recommendations <==> avg < 3.0)
      && (LocalAI.ExerciseAdvice in a.recommendations <==> t == Declining)
      && a.emotionalTrend == LocalAI.Narrative(t)
      && |a.insights| == (if t == Stable then 1 else 2)
      && a.insights[0] == LocalAI.AverageInsight(avg) && a.insights[1..] == LocalAI.TrendInsight(t)
  {
    LocalAI.AdviceDistinct(0);
  }

  /** `generateAIFeedback`: a message drawn from the insights and then the
      recommendations, or the fallback line when both are empty. */
  function GenerateAIFeedback(analysis: PatternAnalysis, rnd: real, now: Millis): (f: AIFeedback)
    requires 0.0 <= rnd < 1.0
    ensures analysis.insights + analysis.recommendations != [] ==>
              f.message in analysis.insights + analysis.recommendations
    ensures analysis.insights + analysis.recommendations == [] ==> f.message == KeepObserving
    ensures f.timestamp == now && f.confidence == 0.8 && AnnotatedFeedback(f)
    ensures f.kind == Encouragement <==> Contains(analysis.emotionalTrend, "좋아")
  {
    var messages := analysis.insights + analysis.recommendations;
    var pool := if messages == [] then [KeepObserving] else messages;
    AIFeedback(now, Pick(pool, rnd), if Contains(analysis.emotionalTrend, "좋아") then Encouragement else Suggestion, 0.8)
  }

  /** Over this analyser's own narratives, the feedback is an encouragement
      exactly when the trend is improving. */
  lemma EncouragementIffImproving(es: seq<EmotionEntry>, now: Millis)
    requires AllListed(es)
    ensures var a := AnalyzeEmotionalTrend(es, now);
      Contains(a.emotionalTrend, "좋아") <==> Recent(es, now) != [] && Classify(LocalAI.Scores(ToRecords(Recent(es, now)))) == Improving
  {
    assert OccursAt(LocalAI.NarrativeImproving, "좋아", 8);
    AbsentHead(LocalAI.NarrativeDeclining, "좋아");
    AbsentHead(LocalAI.NarrativeStable, "좋아");
    AbsentHead(EmptyTrend, "좋아");
    AbsentHead(NoWeekTrend, "좋아");
    RecentSpec(es, now);
    if Recent(es, now) != [] {
      var t := Classify(LocalAI.Scores(ToRecords(Recent(es, now))));
      assert AnalyzeEmotionalTrend(es, now).emotionalTrend == LocalAI.Narrative(t);
    }
  }

  // ---------------------------------------------------------------------------
  // evaluateGoalProgress

  const Congratulations := "축하해요! 목표를 달성했어요! 🎉"
  const NeedsEffort := "목표 달성을 위해 조금 더 노력이 필요해요."
  const GoodPace := "페이스가 좋네요. 계속 진행하세요."
  const GreatPace := "훌륭한 진행 중입니다! 이 속도라면 충분히 달성할 수 있어요!"

  function MaxReal(a: real, b: real): real { if a >= b then a else b }

  /** The percentage of the target reached, spread over the days left. */
  function PacePerDay(daysLeft: real, target: real, current: real): real
    requires target != 0.0
  {
    ((current / target) * 100.0) / MaxReal(1.0, daysLeft)
  }

  /** `evaluateGoalProgress`. With a zero target and a negative current value
      the rate is minus infinity in the source, which lands in the first bucket. */
  function EvaluateGoalProgress(daysLeft: real, target: real, current: real): string
  {
    if current >= target then Congratulations
    else if target == 0.0 then NeedsEffort
    else
      var pace := PacePerDay(daysLeft, target, current);
      if pace < 1.0 then NeedsEffort else if pace < 2.0 then GoodPace else GreatPace
  }

  /** The buckets in order: effort, good pace, great pace, reached. */
  function PaceRank(message: string): int
  {
    if message == NeedsEffort then 0
    else if message == GoodPace then 1
    else if message == GreatPace then 2
    else 3
  }

  lemma DivideByPositive(a: real, b: real, d: real)
    requires d > 0.0 && a <= b
    ensures a / d <= b / d
  {
    assert b / d - a / d == (b - a) / d;
  }

  /** The congratulation comes exactly when the target is reached; for a
      positive target, more progress never gives a lower bucket. */
  lemma EvaluateGoalProgressSpec(daysLeft: real, target: real, c1: real, c2: real)
    ensures EvaluateGoalProgress(daysLeft, target, c1) == Congratulations <==> c1 >= target
    ensures target > 0.0 && c1 <= c2 ==>
              PaceRank(EvaluateGoalProgress(daysLeft, target, c1)) <= PaceRank(EvaluateGoalProgress(daysLeft, target, c2))
  {
    assert NeedsEffort != Congratulations && GoodPace != Congratulations && GreatPace != Congratulations;
    assert NeedsEffort != GoodPace && NeedsEffort != GreatPace && GoodPace != GreatPace;
    if target > 0.0 && c1 <= c2 && c2 < target {
      DivideByPositive(c1, c2, target);
      DivideByPositive((c1 / target) * 100.0, (c2 / target) * 100.0, MaxReal(1.0, daysLeft));
    }
  }
}
