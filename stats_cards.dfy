/** The dashboard figures of `StatsCards.tsx`: today's and this week's
    entries, their mean score, the goal counts, the mean progress and the
    short-term trend of the week. */
module StatsCards {
  import opened Types
  import opened Seqs
  import opened Calendar
  import opened Trend
  import AiAnalytics
  import LocalAI
  import MoodGraph

  /** The card's own score table: the five emotions, "angry" as 2, and 3 for
      anything else. */
  function StatsScore(e: Emotion): (r: int)
    ensures 1 <= r <= 5
    ensures e.Listed() ==> r == ListedScore(e)
    ensures !e.Listed() ==> r == (if e.name == "angry" then 2 else 3)
  {
    if e.Listed() then ListedScore(e) else if e.name == "angry" then 2 else 3
  }

  function StatsScores(es: seq<EmotionEntry>): (r: seq<int>)
    ensures |r| == |es| && forall i :: 0 <= i < |es| ==> r[i] == StatsScore(es[i].emotion)
  {
    seq(|es|, i requires 0 <= i < |es| => StatsScore(es[i].emotion))
  }

  /** `todayEmotions`: the entries on the same local calendar day as now. */
  function TodayEntries(es: seq<EmotionEntry>, now: Millis, tz: int): (r: seq<EmotionEntry>)
    ensures |r| <= |es|
    ensures forall e :: e in r <==> e in es && SameLocalDate(e.date, now, tz)
  {
    if es == [] then []
    else
      var init := es[..|es| - 1];
      var last := es[|es| - 1];
      assert es == init + [last];
      TodayEntries(init, now, tz) + (if SameLocalDate(last.date, now, tz) then [last] else [])
  }

  /** The day filter distributes over concatenation, so it keeps the input
      order and counts every entry of today once per occurrence. */
  lemma {:induction false} TodayAppend(xs: seq<EmotionEntry>, ys: seq<EmotionEntry>, now: Millis, tz: int)
    ensures TodayEntries(xs + ys, now, tz) == TodayEntries(xs, now, tz) + TodayEntries(ys, now, tz)
    decreases |ys|
  {
    if ys == [] {
      assert xs + ys == xs;
    } else {
      var ys' := ys[..|ys| - 1];
      assert (xs + ys)[..|xs + ys| - 1] == xs + ys';
      TodayAppend(xs, ys', now, tz);
    }
  }

  /** One entry is kept exactly when it falls on today's local date. */
  lemma TodayOne(e: EmotionEntry, now: Millis, tz: int)
    ensures TodayEntries([e], now, tz) == if SameLocalDate(e.date, now, tz) then [e] else []
  {
    assert [e][..0] == [];
  }

  /** `weekEmotions`: the same seven-day window as the weekly analyser. */
  function WeekEntries(es: seq<EmotionEntry>, now: Millis): (r: seq<EmotionEntry>)
    ensures forall e :: e in r <==> e in es && e.date >= now - 7 * MsPerDay
  {
    AiAnalytics.RecentSpec(es, now);
    AiAnalytics.Recent(es, now)
  }

  /** `avgEmotionScore`: 0 for no entries, otherwise a mean between 1 and 5. */
  function AvgEmotionScore(es: seq<EmotionEntry>): (r: real)
    ensures es == [] ==> r == 0.0
    ensures es != [] ==> 1.0 <= r <= 5.0
    ensures es != [] ==> r * |es| as real == Sum(StatsScores(es)) as real
  {
    if es == [] then 0.0
    else
      var s := StatsScores(es);
      SumBounds(s, 1, 5);
      MeanBounds(Sum(s), |s|, 1, 5);
      Sum(s) as real / |s| as real
  }

  /** When every emotion is in the five-entry table the card's score table
      and the chart's agree, and so do their means: the card's average is the
      chart's mean score over the same entries. */
  lemma MeansAgree(es: seq<EmotionEntry>)
    requires es != [] && AllListed(es)
    ensures StatsScores(es) == MoodGraph.ListedScores(es)
    ensures MoodGraph.MeanScore(es) == MoodGraph.Num(AvgEmotionScore(es))
  {
    assert StatsScores(es) == MoodGraph.ListedScores(es);
  }

  /** How many goals have the given status. */
  function CountStatus(gs: seq<Goal>, s: GoalStatus): (r: nat)
    ensures r <= |gs|
  {
    if gs == [] then 0 else CountStatus(gs[..|gs| - 1], s) + (if gs[|gs| - 1].status == s then 1 else 0)
  }

  /** Every goal is active, completed or paused, so the two counts shown add
      up to the number of goals less the paused ones. */
  lemma {:induction false} StatusCountsPartition(gs: seq<Goal>)
    ensures CountStatus(gs, Active) + CountStatus(gs, Completed) + CountStatus(gs, Paused) == |gs|
    ensures CountStatus(gs, Active) + CountStatus(gs, Completed) <= |gs|
  {
    if gs != [] {
      StatusCountsPartition(gs[..|gs| - 1]);
    }
  }

  function Progresses(gs: seq<Goal>): (r: seq<int>)
    ensures |r| == |gs| && forall i :: 0 <= i < |gs| ==> r[i] == gs[i].progress
  {
    seq(|gs|, i requires 0 <= i < |gs| => gs[i].progress)
  }

  /** `avgProgress`: the mean progress, 0 with no goals. */
  function AvgProgress(gs: seq<Goal>): (r: real)
    ensures gs == [] ==> r == 0.0
    ensures gs != [] ==> r * |gs| as real == Sum(Progresses(gs)) as real
  {
    if gs == [] then 0.0 else Sum(Progresses(gs)) as real / |gs| as real
  }

  /** When every goal is within its annotated range, so is the mean. */
  lemma AvgProgressBounds(gs: seq<Goal>)
    requires forall i :: 0 <= i < |gs| ==> AnnotatedGoal(gs[i])
    ensures 0.0 <= AvgProgress(gs) <= 100.0
  {
    if gs != [] {
      SumBounds(Progresses(gs), 0, 100);
      MeanBounds(Sum(Progresses(gs)), |gs|, 0, 100);
    }
  }

  /** `recentTrend` over the week's entries: the last three against the three
      before them, with a 0.3 margin. */
  function RecentTrend(week: seq<EmotionEntry>): Trend
  {
    var n := |week|;
    if n < 2 then Stable
    else
      var recent := week[if n >= 3 then n - 3 else 0..];
      var older := week[if n >= 6 then n - 6 else 0..if n >= 3 then n - 3 else 0];
      if older == [] then Stable
      else
        var recentAvg := LocalAI.Average(StatsScores(recent));
        var olderAvg := LocalAI.Average(StatsScores(older));
        if recentAvg > olderAvg + 0.3 then Improving
        else if recentAvg < olderAvg - 0.3 then Declining
        else Stable
  }

  /** Fewer than four entries in the week always read as stable; the verdict
      only looks at the last six entries; equal scores throughout read as
      stable. */
  lemma RecentTrendSpec(week: seq<EmotionEntry>, earlier: seq<EmotionEntry>)
    ensures |week| < 4 ==> RecentTrend(week) == Stable
    ensures |week| >= 6 ==> RecentTrend(earlier + week) == RecentTrend(week)
  {
    if |week| >= 6 {
      var all := earlier + week;
      var n := |all|;
      assert all[n - 3..] == week[|week| - 3..];
      assert all[n - 6..n - 3] == week[|week| - 6..|week| - 3];
    }
  }

  lemma {:induction false} ConstantSum(xs: seq<int>, c: int)
    requires forall i :: 0 <= i < |xs| ==> xs[i] == c
    ensures Sum(xs) == |xs| * c
  {
    SumBounds(xs, c, c);
  }

  lemma SteadyWeekIsStable(week: seq<EmotionEntry>, c: int)
    requires forall i :: 0 <= i < |week| ==> StatsScore(week[i].emotion) == c
    ensures RecentTrend(week) == Stable
  {
    var n := |week|;
    if n >= 4 {
      var recent := week[n - 3..];
      var older := week[if n >= 6 then n - 6 else 0..n - 3];
      ConstantSum(StatsScores(recent), c);
      ConstantSum(StatsScores(older), c);
      MeanBounds(Sum(StatsScores(recent)), |recent|, c, c);
      MeanBounds(Sum(StatsScores(older)), |older|, c, c);
    }
  }
}
