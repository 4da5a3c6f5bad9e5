/** The client-side rule engine of `localAI.ts`: the pattern analyser without a
    date window, keyword detection, the template-based feedback whose pools grow
    in place, the activity and daily-goal suggestions, and the advanced weekly /
    anomaly / health analysis. The clock is a parameter (`now`, `hour`, `tz`),
    and `Math.random()` is a draw `rnd` with 0 <= rnd < 1. */
module LocalAI {
  import opened Types
  import opened Seqs
  import opened Text
  import opened Trend
  import opened Calendar

  /** The fields the analysers read from an entry; `date` is the parsed time. */
  datatype MoodRecord = MoodRecord(emotion: Emotion, date: Millis, mood: string)

  /** The score table with its fallback: an emotion outside the table scores 3. */
  function Score(e: Emotion): (r: int)
    ensures 1 <= r <= 5
    ensures e.Listed() ==> r == ListedScore(e)
    ensures !e.Listed() ==> r == 3
  {
    if e.Listed() then ListedScore(e) else 3
  }

  function Scores(es: seq<MoodRecord>): (r: seq<int>)
    ensures |r| == |es|
    ensures forall i :: 0 <= i < |es| ==> r[i] == Score(es[i].emotion)
  {
    seq(|es|, i requires 0 <= i < |es| => Score(es[i].emotion))
  }

  /** The mean of a non-empty score list, in exact arithmetic. */
  function Average(s: seq<int>): real
    requires s != []
  {
    Sum(s) as real / |s| as real
  }

  // ---------------------------------------------------------------------------
  // analyzeWithLocalAI

  const NoDataTrend := "아직 충분한 데이터가 없습니다."
  const RecordDaily := "매일 감정을 기록해주세요."
  const InsightHigh := "최근 좋은 기분이 많았어요. 계속 유지해보세요!"
  const InsightMid := "감정이 안정적이네요. 더 긍정적인 활동을 시도해보세요."
  const InsightLow := "요즘 감정이 좋지 않은 것 같아요. 자신을 돌봐주세요."
  const RestAdvice := "일찍 잠을 자고 충분히 휴식을 취해보세요."
  const InsightImproving := "당신의 기분이 점점 좋아지고 있어요! 좋은 신호입니다."
  const InsightDeclining := "기분이 조금씩 내려가고 있네요. 스트레스 관리가 필요할 수 있습니다."
  const ExerciseAdvice := "운동이나 명상을 시도해보세요."
  const MorningAdvice := "새벽에는 충분한 휴식이 중요합니다. 천천히 시작해보세요. 🌅"
  const AfternoonAdvice := "오후에는 활동적인 움직임이 도움이 될 거예요. 📍"
  const EveningAdvice := "저녁에는 휴식과 정리 시간이 좋습니다. 🌆"
  const NightAdvice := "밤에는 충분한 수면이 중요합니다. 푹 쉬어보세요. 🌙"
  const NarrativeImproving := "당신의 기분이 좋아지고 있어요! 🌱"
  const NarrativeDeclining := "기분이 조금씩 내려가고 있어요. 😐"
  const NarrativeStable := "감정이 안정적이네요. 😌"

  /** The moods of the entries whose score is `target`, in input order. */
  function MoodsWithScore(es: seq<MoodRecord>, target: int): seq<string>
  {
    if es == [] then []
    else
      var last := es[|es| - 1];
      MoodsWithScore(es[..|es| - 1], target) + (if Score(last.emotion) == target then [last.mood] else [])
  }

  lemma {:induction false} MoodsWithScoreSpec(es: seq<MoodRecord>, target: int)
    ensures |MoodsWithScore(es, target)| <= |es|
    ensures (exists i :: 0 <= i < |es| && Score(es[i].emotion) == target) ==> MoodsWithScore(es, target) != []
    ensures forall i :: 0 <= i < |es| && Score(es[i].emotion) == target ==> es[i].mood in MoodsWithScore(es, target)
    ensures forall m :: m in MoodsWithScore(es, target) ==>
              exists i :: 0 <= i < |es| && es[i].mood == m && Score(es[i].emotion) == target
  {
    if es != [] {
      var init := es[..|es| - 1];
      MoodsWithScoreSpec(init, target);
      forall m | m in MoodsWithScore(es, target)
        ensures exists i :: 0 <= i < |es| && es[i].mood == m && Score(es[i].emotion) == target
      {
        if m in MoodsWithScore(init, target) {
          var i :| 0 <= i < |init| && init[i].mood == m && Score(init[i].emotion) == target;
          assert es[i] == init[i];
        } else {
          assert es[|es| - 1].mood == m;
        }
      }
      forall i | 0 <= i < |es| && Score(es[i].emotion) == target
        ensures es[i].mood in MoodsWithScore(es, target)
      {
        if i < |es| - 1 {
          assert init[i] == es[i];
        }
      }
    }
  }

  /** The filter distributes over concatenation. */
  lemma {:induction false} MoodsWithScoreAppend(xs: seq<MoodRecord>, ys: seq<MoodRecord>, target: int)
    ensures MoodsWithScore(xs + ys, target) == MoodsWithScore(xs, target) + MoodsWithScore(ys, target)
    decreases |ys|
  {
    if ys == [] {
      assert xs + ys == xs;
    } else {
      var ys' := ys[..|ys| - 1];
      assert (xs + ys)[..|xs + ys| - 1] == xs + ys';
      MoodsWithScoreAppend(xs, ys', target);
    }
  }

  /** One entry contributes its mood exactly when it scores `target`. */
  lemma MoodsWithScoreOne(e: MoodRecord, target: int)
    ensures MoodsWithScore([e], target) == if Score(e.emotion) == target then [e.mood] else []
  {
    assert [e][..0] == [];
  }

  /** How many entries score `target`. */
  function MatchCount(es: seq<MoodRecord>, target: int): (r: nat)
    ensures r <= |es|
  {
    if es == [] then 0
    else MatchCount(es[..|es| - 1], target) + (if Score(es[|es| - 1].emotion) == target then 1 else 0)
  }

  /** One mood per entry scoring `target`, in input order: an entry with k
      matching entries before it gives the k-th mood. */
  lemma {:induction false} MoodsWithScorePositions(es: seq<MoodRecord>, target: int)
    ensures |MoodsWithScore(es, target)| == MatchCount(es, target)
    ensures forall i :: 0 <= i < |es| && Score(es[i].emotion) == target ==>
              MatchCount(es[..i], target) < |MoodsWithScore(es, target)| &&
              MoodsWithScore(es, target)[MatchCount(es[..i], target)] == es[i].mood
  {
    if es != [] {
      var n := |es|;
      var init := es[..n - 1];
      MoodsWithScorePositions(init, target);
      var r := MoodsWithScore(es, target);
      var ri := MoodsWithScore(init, target);
      assert r[..|ri|] == ri;
      forall i | 0 <= i < n && Score(es[i].emotion) == target
        ensures MatchCount(es[..i], target) < |r| && r[MatchCount(es[..i], target)] == es[i].mood
      {
        if i < n - 1 {
          assert es[..i] == init[..i];
          assert es[i] == init[i];
        } else {
          assert es[..i] == init;
        }
      }
    }
  }

  /** `slice(0, cap)` of the filter: the moods of the first `cap` entries
      scoring `target`, in input order. */
  lemma FirstMatches(es: seq<MoodRecord>, target: int, cap: nat)
    ensures var r := Take(MoodsWithScore(es, target), cap);
      |r| == (if MatchCount(es, target) <= cap then MatchCount(es, target) else cap)
      && forall i :: 0 <= i < |es| && Score(es[i].emotion) == target && MatchCount(es[..i], target) < cap ==>
           MatchCount(es[..i], target) < |r| && r[MatchCount(es[..i], target)] == es[i].mood
  {
    MoodsWithScorePositions(es, target);
  }

  function AverageInsight(avg: real): string
  {
    if avg >= 4.0 then InsightHigh else if avg >= 3.0 then InsightMid else InsightLow
  }

  function TrendInsight(t: Trend): seq<string>
  {
    match t
    case Improving => [InsightImproving]
    case Declining => [InsightDeclining]
    case Stable => []
  }

  /** The advice for the local hour of the day (`getHours()`). */
  function TimeSuggestion(hour: int): string
  {
    if hour < 6 then MorningAdvice
    else if hour < 12 then MorningAdvice
    else if hour < 18 then AfternoonAdvice
    else if hour < 21 then EveningAdvice
    else NightAdvice
  }

  /** The recommendation list before `slice(0, 3)`. */
  function LocalRecommendations(avg: real, t: Trend, hour: int): seq<string>
  {
    (if avg < 3.0 then [RestAdvice] else [])
    + (if t == Declining then [ExerciseAdvice] else [])
    + [TimeSuggestion(hour)]
  }

  function Narrative(t: Trend): string
  {
    match t
    case Improving => NarrativeImproving
    case Declining => NarrativeDeclining
    case Stable => NarrativeStable
  }

  /** `analyzeWithLocalAI`: every entry takes part, whatever its date. */
  function AnalyzeWithLocalAI(es: seq<MoodRecord>, hour: int): PatternAnalysis
  {
    if es == [] then
      PatternAnalysis(NoDataTrend, [], [], [RecordDaily], [])
    else
      var scores := Scores(es);
      var avg := Average(scores);
      var trend := Classify(scores);
      PatternAnalysis(
        Narrative(trend),
        Take(MoodsWithScore(es, Max(scores)), 3),
        Take(MoodsWithScore(es, Min(scores)), 3),
        Take(LocalRecommendations(avg, trend, hour), 3),
        [AverageInsight(avg)] + TrendInsight(trend))
  }

  /** Peaks, dips and insights are present exactly when there are entries;
      every list holds at most three items and there is always a
      recommendation. */
  lemma LocalAnalysisShape(es: seq<MoodRecord>, hour: int)
    ensures var a := AnalyzeWithLocalAI(es, hour);
      && (es == [] ==> a.moodPeaks == [] && a.moodDips == [] && a.insights == [])
      && (es != [] ==> a.moodPeaks != [] && a.moodDips != [] && a.insights != [])
      && |a.moodPeaks| <= 3 && |a.moodDips| <= 3 && 1 <= |a.recommendations| <= 3
  {
    if es != [] {
      var scores := Scores(es);
      MoodsWithScoreSpec(es, Max(scores));
      MoodsWithScoreSpec(es, Min(scores));
    }
  }

  /** The fixed answer when there is nothing to analyse. */
  lemma EmptyLocalAnalysis(hour: int)
    ensures AnalyzeWithLocalAI([], hour) == PatternAnalysis(NoDataTrend, [], [], [RecordDaily], [])
  {
  }

  /** Entry i has the highest score of all entries. */
  predicate AtMax(es: seq<MoodRecord>, i: int)
    requires 0 <= i < |es|
  {
    forall j :: 0 <= j < |es| ==> Score(es[j].emotion) <= Score(es[i].emotion)
  }

  /** Entry i has the lowest score of all entries. */
  predicate AtMin(es: seq<MoodRecord>, i: int)
    requires 0 <= i < |es|
  {
    forall j :: 0 <= j < |es| ==> Score(es[i].emotion) <= Score(es[j].emotion)
  }

  /** Peaks are moods of entries at the highest score, dips at the lowest; a
      single entry is both its own peak and its own dip. More precisely the
      peaks are the moods of the first three entries at the highest score,
      one per entry and in input order, and the dips those of the first three
      at the lowest score. */
  lemma LocalPeaksAndDips(es: seq<MoodRecord>, hour: int)
    requires es != []
    ensures var a := AnalyzeWithLocalAI(es, hour);
      var top := Max(Scores(es));
      |a.moodPeaks| == (if MatchCount(es, top) <= 3 then MatchCount(es, top) else 3)
      && forall i :: 0 <= i < |es| && Score(es[i].emotion) == top && MatchCount(es[..i], top) < 3 ==>
           MatchCount(es[..i], top) < |a.moodPeaks| && a.moodPeaks[MatchCount(es[..i], top)] == es[i].mood
    ensures var a := AnalyzeWithLocalAI(es, hour);
      var bottom := Min(Scores(es));
      |a.moodDips| == (if MatchCount(es, bottom) <= 3 then MatchCount(es, bottom) else 3)
      && forall i :: 0 <= i < |es| && Score(es[i].emotion) == bottom && MatchCount(es[..i], bottom) < 3 ==>
           MatchCount(es[..i], bottom) < |a.moodDips| && a.moodDips[MatchCount(es[..i], bottom)] == es[i].mood
    ensures forall m :: m in AnalyzeWithLocalAI(es, hour).moodPeaks ==>
              exists i :: 0 <= i < |es| && es[i].mood == m && AtMax(es, i)
    ensures forall m :: m in AnalyzeWithLocalAI(es, hour).moodDips ==>
              exists i :: 0 <= i < |es| && es[i].mood == m && AtMin(es, i)
    ensures |es| == 1 ==>
              AnalyzeWithLocalAI(es, hour).moodPeaks == [es[0].mood] &&
              AnalyzeWithLocalAI(es, hour).moodDips == [es[0].mood]
  {
    var scores := Scores(es);
    var a := AnalyzeWithLocalAI(es, hour);
    MoodsWithScoreSpec(es, Max(scores));
    MoodsWithScoreSpec(es, Min(scores));
    FirstMatches(es, Max(scores), 3);
    FirstMatches(es, Min(scores), 3);
    forall m | m in a.moodPeaks
      ensures exists i :: 0 <= i < |es| && es[i].mood == m && AtMax(es, i)
    {
      assert m in MoodsWithScore(es, Max(scores));
    }
    forall m | m in a.moodDips
      ensures exists i :: 0 <= i < |es| && es[i].mood == m && AtMin(es, i)
    {
      assert m in MoodsWithScore(es, Min(scores));
    }
    if |es| == 1 {
      assert es[..0] == [];
    }
  }

  lemma AdviceDistinct(hour: int)
    ensures TimeSuggestion(hour) != RestAdvice && TimeSuggestion(hour) != ExerciseAdvice
    ensures RestAdvice != ExerciseAdvice
  {
  }

  /** Rest advice exactly when the average is below 3, exercise advice exactly
      when declining, and the time-of-day advice always, last: at most three
      items, so `slice(0, 3)` never cuts anything. */
  lemma LocalRecommendationsSpec(avg: real, t: Trend, hour: int)
    ensures var r := LocalRecommendations(avg, t, hour);
      1 <= |r| <= 3 && Take(r, 3) == r
      && (RestAdvice in r <==> avg < 3.0)
      && (ExerciseAdvice in r <==> t == Declining)
      && r[|r| - 1] == TimeSuggestion(hour)
  {
    AdviceDistinct(hour);
  }

  /** One average line plus one trend line unless stable; the recommendations
      are the untruncated list; the narrative follows the trend alone. */
  lemma LocalInsightsAndRecommendations(es: seq<MoodRecord>, hour: int)
    requires es != []
    ensures var a := AnalyzeWithLocalAI(es, hour);
      var avg := Average(Scores(es));
      var t := Classify(Scores(es));
      |a.insights| == (if t == Stable then 1 else 2)
      && a.insights[0] == AverageInsight(avg) && a.insights[1..] == TrendInsight(t)
      && a.recommendations == LocalRecommendations(avg, t, hour)
      && a.emotionalTrend == Narrative(t)
  {
    LocalRecommendationsSpec(Average(Scores(es)), Classify(Scores(es)), hour);
  }

  // ---------------------------------------------------------------------------
  // detectEmotionKeywords

  /** The keyword categories, in the order `Object.entries` visits them. */
  datatype Feeling = HappyWords | SadWords | StressedWords | CalmWords | ExcitedWords

  const Feelings: seq<Feeling> := [HappyWords, SadWords, StressedWords, CalmWords, ExcitedWords]

  function Keywords(c: Feeling): seq<string>
  {
    match c
    case HappyWords => ["기쁨", "행복", "즐거움", "신남", "행복", "좋음"]
    case SadWords => ["슬픔", "우울", "침울", "기분", "외로움"]
    case StressedWords => ["스트레스", "불안", "걱정", "긴장", "피곤", "힘듦"]
    case CalmWords => ["차분", "편안", "평화", "조용", "안정"]
    case ExcitedWords => ["흥분", "신났", "기대", "설렜", "신남"]
  }

  lemma FeelingsDistinct()
    ensures NoDuplicates(Feelings)
  {
  }

  /** The inner loop: one push of c per keyword of kws that occurs in text. */
  function KeywordHits(text: string, c: Feeling, kws: seq<string>): seq<Feeling>
  {
    if kws == [] then []
    else KeywordHits(text, c, kws[..|kws| - 1]) + (if Contains(text, kws[|kws| - 1]) then [c] else [])
  }

  /** The outer loop over the categories cs. */
  function Pushed(text: string, cs: seq<Feeling>): seq<Feeling>
  {
    if cs == [] then []
    else Pushed(text, cs[..|cs| - 1]) + KeywordHits(text, cs[|cs| - 1], Keywords(cs[|cs| - 1]))
  }

  /** `detectEmotionKeywords`: the categories pushed while scanning the
      lower-cased text, without repeats. */
  function DetectEmotionKeywords(text: string): seq<Feeling>
  {
    Dedupe(Pushed(Lower(text), Feelings))
  }

  /** Some keyword of category c occurs in text. */
  predicate Mentions(text: string, c: Feeling)
  {
    exists k :: k in Keywords(c) && Contains(text, k)
  }

  /** The categories of cs that text mentions, in the order of cs. */
  function Mentioned(text: string, cs: seq<Feeling>): seq<Feeling>
  {
    if cs == [] then []
    else Mentioned(text, cs[..|cs| - 1]) + (if Mentions(text, cs[|cs| - 1]) then [cs[|cs| - 1]] else [])
  }

  lemma {:induction false} KeywordHitsSpec(text: string, c: Feeling, kws: seq<string>)
    ensures forall i :: 0 <= i < |KeywordHits(text, c, kws)| ==> KeywordHits(text, c, kws)[i] == c
    ensures KeywordHits(text, c, kws) != [] <==> exists k :: k in kws && Contains(text, k)
  {
    if kws != [] {
      var init := kws[..|kws| - 1];
      KeywordHitsSpec(text, c, init);
      assert forall k :: k in kws <==> k in init || k == kws[|kws| - 1];
    }
  }

  /** Appending a run of a value not seen before adds it once. */
  lemma {:induction false} DedupeRun(xs: seq<Feeling>, c: Feeling, run: seq<Feeling>)
    requires c !in xs && run != [] && forall i :: 0 <= i < |run| ==> run[i] == c
    ensures Dedupe(xs + run) == Dedupe(xs) + [c]
    decreases |run|
  {
    var whole := xs + run;
    assert whole[..|whole| - 1] == xs + run[..|run| - 1];
    assert run[|run| - 1] in run;
    if |run| == 1 {
      DedupeSpec(xs);
      assert run[..0] == [] && xs + run[..0] == xs;
    } else {
      assert run[0] in run[..|run| - 1];
      DedupeRun(xs, c, run[..|run| - 1]);
    }
  }

  lemma {:induction false} PushedSpec(text: string, cs: seq<Feeling>)
    requires NoDuplicates(cs)
    ensures forall x :: x in Pushed(text, cs) ==> x in cs
    ensures Dedupe(Pushed(text, cs)) == Mentioned(text, cs)
  {
    if cs != [] {
      var init, c := cs[..|cs| - 1], cs[|cs| - 1];
      PushedSpec(text, init);
      KeywordHitsSpec(text, c, Keywords(c));
      var hits := KeywordHits(text, c, Keywords(c));
      assert c !in init;
      if hits == [] {
        assert Pushed(text, cs) == Pushed(text, init);
      } else {
        DedupeRun(Pushed(text, init), c, hits);
      }
    }
  }

  lemma {:induction false} MentionedSpec(text: string, cs: seq<Feeling>)
    ensures forall c :: c in Mentioned(text, cs) <==> c in cs && Mentions(text, c)
  {
    if cs != [] {
      MentionedSpec(text, cs[..|cs| - 1]);
      assert forall c :: c in cs <==> c in cs[..|cs| - 1] || c == cs[|cs| - 1];
    }
  }

  /** Every keyword is Hangul, so lower-casing the text changes no match. */
  lemma KeywordsCaseless(c: Feeling)
    ensures forall k :: k in Keywords(c) ==> Caseless(k)
  {
  }

  lemma {:induction false} MentionedLower(text: string, cs: seq<Feeling>)
    ensures Mentioned(Lower(text), cs) == Mentioned(text, cs)
  {
    if cs != [] {
      MentionedLower(text, cs[..|cs| - 1]);
      var c := cs[|cs| - 1];
      KeywordsCaseless(c);
      forall k | k in Keywords(c) ensures Contains(Lower(text), k) <==> Contains(text, k) {
        LowerKeepsMatches(text, k);
      }
    }
  }

  /** The detected categories are, without repeats and in category order,
      exactly those with a keyword in the text. */
  lemma DetectEmotionKeywordsSpec(text: string)
    ensures DetectEmotionKeywords(text) == Mentioned(text, Feelings)
    ensures NoDuplicates(DetectEmotionKeywords(text))
    ensures forall c :: c in DetectEmotionKeywords(text) <==> Mentions(text, c)
  {
    FeelingsDistinct();
    DetectOver(Lower(text), Feelings);
    MentionedLower(text, Feelings);
    MentionedSpec(text, Feelings);
    forall c: Feeling ensures c in Feelings {
      match c
      case HappyWords => assert Feelings[0] == c;
      case SadWords => assert Feelings[1] == c;
      case StressedWords => assert Feelings[2] == c;
      case CalmWords => assert Feelings[3] == c;
      case ExcitedWords => assert Feelings[4] == c;
    }
  }

  lemma DetectOver(text: string, cs: seq<Feeling>)
    requires NoDuplicates(cs)
    ensures Dedupe(Pushed(text, cs)) == Mentioned(text, cs)
    ensures NoDuplicates(Dedupe(Pushed(text, cs)))
    ensures forall c :: c in Dedupe(Pushed(text, cs)) <==> c in cs && Mentions(text, c)
  {
    PushedSpec(text, cs);
    DedupeSpec(Pushed(text, cs));
    MentionedSpec(text, cs);
  }

  // ---------------------------------------------------------------------------
  // generateLocalAIFeedback

  const EnergeticTemplates: seq<string> := [
    "오늘은 에너지가 많아요! 이 활력을 유지해보세요. ⚡",
    "신나는 기분이 느껴집니다. 좋은 하루예요! 🎉"]

  const RelaxedTemplates: seq<string> := [
    "편안한 상태를 유지하고 있군요. 좋은 휴식이 되길 바랍니다. 🌙",
    "차분한 기분이 드네요. 자신을 아껴주세요. 💝"]

  /** Which template list a narrative draws from. */
  datatype PoolName = ImprovingPool | DecliningPool | StablePool

  function PoolFor(narrative: string): PoolName
  {
    if Contains(narrative, "좋아지") then ImprovingPool
    else if Contains(narrative, "내려가") then DecliningPool
    else StablePool
  }

  /** The templates added for the latest entry's mood text: energetic ones on a
      happy keyword, otherwise relaxed ones on a calm keyword. */
  function Bonus(emotions: seq<MoodRecord>): (r: seq<string>)
    ensures emotions == [] ==> r == []
  {
    if emotions == [] then []
    else
      var detected := DetectEmotionKeywords(emotions[|emotions| - 1].mood);
      if HappyWords in detected then EnergeticTemplates
      else if CalmWords in detected then RelaxedTemplates
      else []
  }

  /** An encouragement when the narrative says the mood is improving, a
      suggestion otherwise. */
  function FeedbackKind(narrative: string): FeedbackType
  {
    if Contains(narrative, "좋아지") then Encouragement else Suggestion
  }

  /** The module-level template table; three of its lists grow in place. */
  class FeedbackTemplates {
    var improving: seq<string>
    var declining: seq<string>
    var stable: seq<string>

    predicate Valid()
      reads this
    {
      improving != [] && declining != [] && stable != []
    }

    function Pool(p: PoolName): seq<string>
      reads this
    {
      match p
      case ImprovingPool => improving
      case DecliningPool => declining
      case StablePool => stable
    }

    constructor ()
      ensures Valid()
      ensures |improving| == 3 && |declining| == 3 && |stable| == 3
    {
      improving := [
        "최근에 좋은 기분이 많아지고 있어요. 계속 유지해보세요! 🌱",
        "감정이 점점 좋아지고 있습니다. 훌륭해요! 💪",
        "당신의 노력이 나타나고 있어요. 더 진행하세요! ✨"];
      declining := [
        "최근에 기분이 좋지 않은 것 같아요. 자신을 돌봐주세요. 💙",
        "스트레스가 많아 보입니다. 휴식이 필요할 수 있습니다. 🌤️",
        "감정이 낮아지고 있네요. 긍정적인 활동을 시도해보세요. 🎯"];
      stable := [
        "감정이 안정적이네요. 현재의 상태를 유지하세요. 😌",
        "균형잡힌 감정 상태를 유지하고 있습니다. 좋습니다! 🎨",
        "일관된 감정 패턴을 보여주고 있어요. 좋은 신호입니다. 📊"];
    }

    /** `generateLocalAIFeedback`: the chosen list keeps the bonus templates for
        good, the other lists are untouched, and the message is drawn from the
        grown list. */
    method GenerateLocalAIFeedback(analysis: PatternAnalysis, emotions: seq<MoodRecord>, rnd: real, now: Millis)
      returns (f: AIFeedback)
      requires Valid() && 0.0 <= rnd < 1.0
      modifies this
      ensures Valid()
      ensures var p := PoolFor(analysis.emotionalTrend);
        Pool(p) == old(Pool(p)) + Bonus(emotions) &&
        forall q :: q != p ==> Pool(q) == old(Pool(q))
      ensures f.message in Pool(PoolFor(analysis.emotionalTrend))
      ensures f.timestamp == now && f.confidence == 0.85
      ensures f.kind == FeedbackKind(analysis.emotionalTrend)
    {
      var p := PoolFor(analysis.emotionalTrend);
      var bonus := Bonus(emotions);
      match p {
        case ImprovingPool => improving := improving + bonus;
        case DecliningPool => declining := declining + bonus;
        case StablePool => stable := stable + bonus;
      }
      var message := Pick(Pool(p), rnd);
      var kind := FeedbackKind(analysis.emotionalTrend);
      f := AIFeedback(now, message, kind, 0.85);
    }
  }

  /** The narratives of the local analyser select the list of their own trend;
      only the improving narrative makes the feedback an encouragement. */
  lemma NarrativePools(t: Trend)
    ensures PoolFor(Narrative(t)) == (match t
      case Improving => ImprovingPool
      case Declining => DecliningPool
      case Stable => StablePool)
    ensures Contains(Narrative(t), "좋아지") <==> t == Improving
    ensures PoolFor(NoDataTrend) == StablePool
  {
    assert OccursAt(NarrativeImproving, "좋아지", 8);
    assert OccursAt(NarrativeDeclining, "내려가", 8);
    AbsentHead(NarrativeDeclining, "좋아지");
    AbsentHead(NarrativeStable, "좋아지");
    AbsentHead(NarrativeStable, "내려가");
    AbsentHead(NoDataTrend, "좋아지");
    AbsentHead(NoDataTrend, "내려가");
  }

  // ---------------------------------------------------------------------------
  // suggestActivities and suggestDailyGoal

  /** The band of the average that `suggestActivities` branches on. */
  function ActivityBand(avg: real): int
  {
    if avg < 2.0 then 0 else if avg < 3.0 then 1 else 2
  }

  function SuggestActivities(avg: real): (r: seq<string>)
    ensures |r| == 3
  {
    if avg < 2.0 then ["🌳 자연 속에서 산책해보세요", "🧘 명상이나 요가를 시도해보세요", "☕ 좋아하는 음료를 마시면서 휴식해보세요"]
    else if avg < 3.0 then ["📚 재미있는 책이나 영상 감상", "🎵 좋아하는 음악 듣기", "🎨 창의적인 활동 (그리기, 글쓰기)"]
    else ["🏃 운동으로 에너지 발산", "👥 친구들과 시간 보내기", "🎯 새로운 도전 시작하기"]
  }

  /** Two averages get the same three activities exactly when they fall in the
      same band (below 2, [2, 3), 3 and above). */
  lemma ActivitiesByBand(a: real, b: real)
    ensures SuggestActivities(a) == SuggestActivities(b) <==> ActivityBand(a) == ActivityBand(b)
  {
    if ActivityBand(a) != ActivityBand(b) {
      assert SuggestActivities(a)[0] != SuggestActivities(b)[0];
    }
  }

  const StartPositive := "오늘 하루를 긍정적으로 보내는 것을 목표로 해보세요."
  const FirstToday := "오늘 첫 감정을 기록해보세요. 🌅"
  const CareToday := "오늘은 자신을 아끼고 휴식을 우선하세요. 💙"
  const FindMoments := "오늘 하루의 좋은 순간을 찾아보세요. 👀"
  const ShareMood := "오늘의 좋은 기분을 나누어주세요. ✨"

  /** Scores of the entries dated on the same local calendar day as now. */
  function TodayScores(es: seq<MoodRecord>, now: Millis, tz: int): seq<int>
  {
    if es == [] then []
    else
      var last := es[|es| - 1];
      TodayScores(es[..|es| - 1], now, tz) + (if SameLocalDate(last.date, now, tz) then [Score(last.emotion)] else [])
  }

  /** `suggestDailyGoal`. */
  function SuggestDailyGoal(es: seq<MoodRecord>, now: Millis, tz: int): string
  {
    if es == [] then StartPositive
    else
      var today := TodayScores(es, now, tz);
      if today == [] then FirstToday
      else
        var avg := Average(today);
        if avg < 2.5 then CareToday else if avg < 3.5 then FindMoments else ShareMood
  }

  lemma {:induction false} TodayScoresSpec(es: seq<MoodRecord>, now: Millis, tz: int)
    ensures TodayScores(es, now, tz) == [] <==> forall i :: 0 <= i < |es| ==> !SameLocalDate(es[i].date, now, tz)
  {
    if es != [] {
      var init := es[..|es| - 1];
      TodayScoresSpec(init, now, tz);
      assert forall i :: 0 <= i < |init| ==> init[i] == es[i];
    }
  }

  /** With some history, the first-entry prompt appears exactly when nothing is
      dated today, and an entry from another day never changes the goal. */
  lemma DailyGoalUsesToday(es: seq<MoodRecord>, e: MoodRecord, now: Millis, tz: int)
    requires es != []
    ensures SuggestDailyGoal(es, now, tz) == FirstToday <==>
              forall i :: 0 <= i < |es| ==> !SameLocalDate(es[i].date, now, tz)
    ensures !SameLocalDate(e.date, now, tz) ==> SuggestDailyGoal(es + [e], now, tz) == SuggestDailyGoal(es, now, tz)
  {
    TodayScoresSpec(es, now, tz);
    if !SameLocalDate(e.date, now, tz) {
      assert (es + [e])[..|es + [e]| - 1] == es;
      assert TodayScores(es + [e], now, tz) == TodayScores(es, now, tz);
    }
  }

  // ---------------------------------------------------------------------------
  // advancedPatternAnalysis

  /** The weekly line: the best and worst weekday (0 = Sunday) with their means,
      or the not-enough-data notice. */
  datatype WeeklyPattern =
    | NotEnoughData
    | BestWorst(bestDay: int, bestMean: real, worstDay: int, worstMean: real)

  /** Anomalies are the local days (day numbers, which `toLocaleDateString`
      renders as dates) of the entries after a jump. */
  datatype AdvancedAnalysis = AdvancedAnalysis(
    weeklyPattern: WeeklyPattern,
    anomalies: seq<int>,
    improvementSuggestions: seq<string>,
    healthScore: int)

  const ConsultExpert := "전문가 상담을 고려해보세요."
  const ExerciseAndSleep := "규칙적인 운동과 충분한 수면을 권장합니다."
  const MorePositive := "긍정적인 활동을 늘려보세요."
  const StayConnected := "사회적 연결을 유지하세요."
  const ManageStress := "감정 변화가 크네요. 스트레스 관리를 시도해보세요."

  /** The scores of the entries whose local weekday is d, in input order. */
  function DayScores(es: seq<MoodRecord>, tz: int, d: int): seq<int>
  {
    if es == [] then []
    else
      var last := es[|es| - 1];
      DayScores(es[..|es| - 1], tz, d) + (if Weekday(last.date, tz) == d then [Score(last.emotion)] else [])
  }

  lemma {:induction false} DayScoresSpec(es: seq<MoodRecord>, tz: int, d: int)
    ensures DayScores(es, tz, d) != [] <==> exists i :: 0 <= i < |es| && Weekday(es[i].date, tz) == d
  {
    if es != [] {
      var init := es[..|es| - 1];
      DayScoresSpec(init, tz, d);
      if exists i :: 0 <= i < |es| && Weekday(es[i].date, tz) == d {
        var i :| 0 <= i < |es| && Weekday(es[i].date, tz) == d;
        if i < |init| { assert init[i] == es[i]; }
      }
      if exists i :: 0 <= i < |init| && Weekday(init[i].date, tz) == d {
        var i :| 0 <= i < |init| && Weekday(init[i].date, tz) == d;
        assert es[i] == init[i];
      }
    }
  }

  /** The `dayOfWeekScores` table as a value: every weekday with entries,
      mapped to the scores of that day. */
  function WeekdayGroups(es: seq<MoodRecord>, tz: int): map<int, seq<int>>
  {
    map d | 0 <= d < 7 && DayScores(es, tz, d) != [] :: DayScores(es, tz, d)
  }

  /** d has the highest mean in the table; on a tie, it is the smallest such day. */
  predicate IsBestDay(groups: map<int, seq<int>>, d: int)
  {
    d in groups && groups[d] != [] &&
    (forall e :: e in groups && groups[e] != [] ==> Average(groups[e]) <= Average(groups[d])) &&
    (forall e :: e in groups && e < d && groups[e] != [] ==> Average(groups[e]) < Average(groups[d]))
  }

  /** d has the lowest mean in the table; on a tie, it is the smallest such day. */
  predicate IsWorstDay(groups: map<int, seq<int>>, d: int)
  {
    d in groups && groups[d] != [] &&
    (forall e :: e in groups && groups[e] != [] ==> Average(groups[d]) <= Average(groups[e])) &&
    (forall e :: e in groups && e < d && groups[e] != [] ==> Average(groups[d]) < Average(groups[e]))
  }

  /** The best and the worst weekday are each determined uniquely. */
  lemma BestAndWorstUnique(groups: map<int, seq<int>>, d1: int, d2: int)
    ensures IsBestDay(groups, d1) && IsBestDay(groups, d2) ==> d1 == d2
    ensures IsWorstDay(groups, d1) && IsWorstDay(groups, d2) ==> d1 == d2
  {
  }

  /** Every entry has a weekday group, and only weekdays 0..6 have one. */
  lemma WeekdayGroupsSpec(es: seq<MoodRecord>, tz: int)
    ensures forall d :: d in WeekdayGroups(es, tz) ==> 0 <= d < 7 && WeekdayGroups(es, tz)[d] != []
    ensures forall i :: 0 <= i < |es| ==> Weekday(es[i].date, tz) in WeekdayGroups(es, tz)
  {
    forall i | 0 <= i < |es| ensures Weekday(es[i].date, tz) in WeekdayGroups(es, tz) {
      DayScoresSpec(es, tz, Weekday(es[i].date, tz));
    }
  }

  function Dist(a: int, b: int): nat
  {
    if a < b then b - a else a - b
  }

  /** The indices i in 1 .. k-1 where the score moves by 2 or more, ascending. */
  function Jumps(s: seq<int>, k: nat): (r: seq<nat>)
    requires k <= |s|
    ensures forall j :: 0 <= j < |r| ==> 1 <= r[j] < k
  {
    if k <= 1 then []
    else Jumps(s, k - 1) + (if Dist(s[k - 1], s[k - 2]) >= 2 then [k - 1] else [])
  }

  lemma {:induction false} JumpsSpec(s: seq<int>, k: nat)
    requires k <= |s|
    ensures forall i: int :: i in Jumps(s, k) <==> 1 <= i < k && Dist(s[i], s[i - 1]) >= 2
    ensures forall a, b :: 0 <= a < b < |Jumps(s, k)| ==> Jumps(s, k)[a] < Jumps(s, k)[b]
  {
    if k > 1 {
      JumpsSpec(s, k - 1);
      var prev := Jumps(s, k - 1);
      var last: seq<nat> := if Dist(s[k - 1], s[k - 2]) >= 2 then [k - 1] else [];
      assert Jumps(s, k) == prev + last;
      forall i: int ensures i in prev + last <==> 1 <= i < k && Dist(s[i], s[i - 1]) >= 2 {
        assert i in prev + last <==> i in prev || i in last;
      }
      forall a, b | 0 <= a < b < |prev + last| ensures (prev + last)[a] < (prev + last)[b] {
        if b >= |prev| {
          assert (prev + last)[a] == prev[a];
        }
      }
    } else {
      assert Jumps(s, k) == [];
    }
  }

  /** The local dates of the entries at the given indices. */
  function DatesAt(es: seq<MoodRecord>, tz: int, idx: seq<nat>): (r: seq<int>)
    requires forall j :: 0 <= j < |idx| ==> idx[j] < |es|
    ensures |r| == |idx|
  {
    if idx == [] then []
    else DatesAt(es, tz, idx[..|idx| - 1]) + [LocalDay(es[idx[|idx| - 1]].date, tz)]
  }

  /** Every anomaly found, before the list is cut to five. */
  function AnomalyDates(es: seq<MoodRecord>, tz: int): seq<int>
  {
    DatesAt(es, tz, Jumps(Scores(es), |es|))
  }

  /** `Math.min(100, Math.max(0, x))`. */
  function Clamp(x: real): (r: real)
    ensures 0.0 <= r <= 100.0
    ensures 0.0 <= x <= 100.0 ==> r == x
  {
    if x > 100.0 then 100.0 else if x < 0.0 then 0.0 else x
  }

  /** `Math.round`: halves go up. */
  function Round(x: real): (r: int)
    ensures x - 0.5 < r as real <= x + 0.5
  {
    (x + 0.5).Floor
  }

  /** The health score: the average mapped from 1..5 to 0..100, less 5 points
      per anomaly (all of them, not just the five reported), clamped, rounded. */
  function HealthScore(avg: real, anomalyCount: nat): (h: int)
    ensures 0 <= h <= 100
  {
    Round(Clamp(((avg - 1.0) / 4.0) * 100.0 - anomalyCount as real * 5.0))
  }

  function ImprovementSuggestions(avg: real, anomalyCount: nat, n: nat): seq<string>
  {
    (if avg < 2.5 then [ConsultExpert, ExerciseAndSleep]
     else if avg < 3.5 then [MorePositive, StayConnected]
     else [])
    + (if anomalyCount as real > n as real * 0.3 then [ManageStress] else [])
  }

  /** Two suggestions below 2.5, two others in [2.5, 3.5), none above; and the
      stress advice exactly when more than 30% of the entries follow a jump. */
  lemma ImprovementSuggestionsSpec(avg: real, anomalyCount: nat, n: nat)
    ensures var r := ImprovementSuggestions(avg, anomalyCount, n);
      (ManageStress in r <==> 10 * anomalyCount > 3 * n) &&
      |r| == (if avg < 3.5 then 2 else 0) + (if 10 * anomalyCount > 3 * n then 1 else 0) &&
      (ConsultExpert in r <==> avg < 2.5) &&
      (MorePositive in r <==> 2.5 <= avg < 3.5)
  {
    assert anomalyCount as real > n as real * 0.3 <==> 10 * anomalyCount > 3 * n;
    assert ManageStress != ConsultExpert && ManageStress != ExerciseAndSleep;
    assert ManageStress != MorePositive && ManageStress != StayConnected;
    assert ConsultExpert != MorePositive && ConsultExpert != StayConnected;
    assert MorePositive != ExerciseAndSleep;
  }

  /** The `dayOfWeekScores` loop. */
  method GroupByWeekday(es: seq<MoodRecord>, tz: int) returns (dayScores: map<int, seq<int>>)
    ensures dayScores == WeekdayGroups(es, tz)
  {
    dayScores := map[];
    for i := 0 to |es|
      invariant forall d :: d in dayScores <==> DayScores(es[..i], tz, d) != []
      invariant forall d :: d in dayScores ==> dayScores[d] == DayScores(es[..i], tz, d)
    {
      assert es[..i + 1][..i] == es[..i];
      var day := Weekday(es[i].date, tz);
      if day !in dayScores {
        dayScores := dayScores[day := []];
      }
      dayScores := dayScores[day := dayScores[day] + [Score(es[i].emotion)]];
    }
    assert es[..|es|] == es;
    forall d | d in dayScores ensures 0 <= d < 7 {
      DayScoresSpec(es, tz, d);
    }
  }

  /** The entry `sort((a, b) => b[1] - a[1])[0]` returns: the sort is stable
      and `Object.entries` lists integer keys in ascending order, so it is the
      first strict maximum of a scan over the weekdays. */
  method BestDay(groups: map<int, seq<int>>) returns (best: int, bestMean: real)
    requires groups != map[]
    requires forall d :: d in groups ==> 0 <= d < 7 && groups[d] != []
    ensures IsBestDay(groups, best) && bestMean == Average(groups[best])
  {
    best, bestMean := -1, 0.0;
    for d := 0 to 7
      invariant best == -1 ==> forall e :: e in groups ==> e >= d
      invariant best != -1 ==> 0 <= best < d && best in groups && bestMean == Average(groups[best])
      invariant best != -1 ==> forall e :: e in groups && e < d ==> Average(groups[e]) <= bestMean
      invariant best != -1 ==> forall e :: e in groups && e < best ==> Average(groups[e]) < bestMean
    {
      if d in groups {
        var mean := Average(groups[d]);
        if best == -1 || mean > bestMean {
          best, bestMean := d, mean;
        }
      }
    }
    var k :| k in groups;
  }

  /** The entry `sort((a, b) => a[1] - b[1])[0]` returns: the first strict minimum. */
  method WorstDay(groups: map<int, seq<int>>) returns (worst: int, worstMean: real)
    requires groups != map[]
    requires forall d :: d in groups ==> 0 <= d < 7 && groups[d] != []
    ensures IsWorstDay(groups, worst) && worstMean == Average(groups[worst])
  {
    worst, worstMean := -1, 0.0;
    for d := 0 to 7
      invariant worst == -1 ==> forall e :: e in groups ==> e >= d
      invariant worst != -1 ==> 0 <= worst < d && worst in groups && worstMean == Average(groups[worst])
      invariant worst != -1 ==> forall e :: e in groups && e < d ==> worstMean <= Average(groups[e])
      invariant worst != -1 ==> forall e :: e in groups && e < worst ==> worstMean < Average(groups[e])
    {
      if d in groups {
        var mean := Average(groups[d]);
        if worst == -1 || mean < worstMean {
          worst, worstMean := d, mean;
        }
      }
    }
    var k :| k in groups;
  }

  /** The anomaly loop: one date per jump, in the order found. */
  method FindAnomalies(es: seq<MoodRecord>, tz: int) returns (anomalies: seq<int>)
    ensures anomalies == AnomalyDates(es, tz)
  {
    var scores := Scores(es);
    anomalies := [];
    if |es| == 0 {
      return;
    }
    for i := 1 to |es|
      invariant anomalies == DatesAt(es, tz, Jumps(scores, i))
    {
      if Dist(scores[i], scores[i - 1]) >= 2 {
        var js := Jumps(scores, i + 1);
        assert js == Jumps(scores, i) + [i];
        assert js[..|js| - 1] == Jumps(scores, i);
        anomalies := anomalies + [LocalDay(es[i].date, tz)];
      } else {
        assert Jumps(scores, i + 1) == Jumps(scores, i);
      }
    }
  }

  /** What `advancedPatternAnalysis` answers for the entries: the fixed
      answer below seven entries; otherwise the best and worst weekday with
      their means, the first five anomaly dates, the health score and the
      suggestions, each computed from all the entries. */
  ghost predicate AdvancedFor(es: seq<MoodRecord>, tz: int, r: AdvancedAnalysis)
  {
    && (|es| < 7 ==> r == AdvancedAnalysis(NotEnoughData, [], [RecordDaily], 0))
    && (|es| >= 7 ==>
      && r.weeklyPattern.BestWorst?
      && IsBestDay(WeekdayGroups(es, tz), r.weeklyPattern.bestDay)
      && r.weeklyPattern.bestMean == Average(WeekdayGroups(es, tz)[r.weeklyPattern.bestDay])
      && IsWorstDay(WeekdayGroups(es, tz), r.weeklyPattern.worstDay)
      && r.weeklyPattern.worstMean == Average(WeekdayGroups(es, tz)[r.weeklyPattern.worstDay])
      && r.anomalies == Take(AnomalyDates(es, tz), 5)
      && r.healthScore == HealthScore(Average(Scores(es)), |AnomalyDates(es, tz)|)
      && r.improvementSuggestions
         == ImprovementSuggestions(Average(Scores(es)), |AnomalyDates(es, tz)|, |es|))
  }

  method AdvancedPatternAnalysis(es: seq<MoodRecord>, tz: int) returns (r: AdvancedAnalysis)
    ensures AdvancedFor(es, tz, r)
  {
    if |es| < 7 {
      return AdvancedAnalysis(NotEnoughData, [], [RecordDaily], 0);
    }
    var dayScores := GroupByWeekday(es, tz);
    WeekdayGroupsSpec(es, tz);
    assert Weekday(es[0].date, tz) in dayScores;
    var best, bestMean := BestDay(dayScores);
    var worst, worstMean := WorstDay(dayScores);
    var anomalies := FindAnomalies(es, tz);
    var avg := Average(Scores(es));
    var health := HealthScore(avg, |anomalies|);
    var suggestions := ImprovementSuggestions(avg, |anomalies|, |es|);
    r := AdvancedAnalysis(BestWorst(best, bestMean, worst, worstMean), Take(anomalies, 5), suggestions, health);
  }

  /** [1, 5, 1, 5, 1, 5, 1]: six jumps, five of them reported, and a health
      score of round(300/7 - 30) = 13. */
  lemma HealthExample()
    ensures var s := [1, 5, 1, 5, 1, 5, 1];
      |Jumps(s, 7)| == 6 && HealthScore(Average(s), |Jumps(s, 7)|) == 13
  {
    var s := [1, 5, 1, 5, 1, 5, 1];
    assert Jumps(s, 1) == [];
    assert Jumps(s, 2) == [1];
    assert Jumps(s, 3) == [1, 2];
    assert Jumps(s, 4) == [1, 2, 3];
    assert Jumps(s, 5) == [1, 2, 3, 4];
    assert Jumps(s, 6) == [1, 2, 3, 4, 5];
    assert Jumps(s, 7) == [1, 2, 3, 4, 5, 6];
    assert s[..6] == [1, 5, 1, 5, 1, 5] && [1, 5, 1, 5, 1, 5][..5] == [1, 5, 1, 5, 1];
    assert [1, 5, 1, 5, 1][..4] == [1, 5, 1, 5] && [1, 5, 1, 5][..3] == [1, 5, 1];
    assert [1, 5, 1][..2] == [1, 5] && [1, 5][..1] == [1] && [1][..0] == [];
    assert Sum(s) == 19;
    var x := ((19.0 / 7.0 - 1.0) / 4.0) * 100.0 - 30.0;
    assert x == 90.0 / 7.0;
    assert Clamp(x) == x;
    assert (x + 0.5).Floor == 13;
  }
}
