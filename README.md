# Mogle mood and goal coach — a verified model

Mogle is a browser app for keeping a mood diary and personal goals. Each diary
entry has an emotion on a five-step scale, an intensity, a mood text and a
date. Each goal has a progress percentage and a status. The app keeps both
lists in an IndexedDB database, with localStorage copies as backup. It draws
a chart and dashboard figures from the entries. A rule-based "local AI"
analyses them: trend by least-squares slope, mood peaks and dips, insights,
time-of-day advice, a weekday pattern, anomalies and a health score. It then
gives feedback, which an optional on-device language model may replace.

This Dafny project models that core. There is one module per source file,
plus helper modules:

| module | file | models |
|---|---|---|
| `Types` | types.dfy | the entry, goal, feedback and analysis records |
| `Calendar` | calendar.dfy | local day, weekday and civil date for a fixed time-zone offset |
| `Text` | text.dfy | `includes`, ASCII `toLowerCase`, `join` |
| `Seqs` | seqs.dfy | slices, sums, maximum and minimum, de-duplication, the random pick |
| `Keys` | keys.dfy | the ascending key order of IndexedDB `getAll` |
| `Trend` | trend.dfy | `calculateTrend`, shared by both analysers |
| `LocalAI` | local_ai.dfy | `src/utils/localAI.ts` |
| `AiAnalytics` | ai_analytics.dfy | `src/utils/aiAnalytics.ts` |
| `EntryStore` | entry_store.dfy | `src/utils/indexedDB.ts` |
| `LlamaClient` | llama_client.dfy | `src/utils/llamaClient.ts` |
| `AiFeedbackPanel` | ai_feedback.dfy | `generateAnalysis` of `src/components/AIFeedback.tsx` |
| `GoalMonitor` | goal_monitor.dfy | the goal card logic of `src/components/GoalMonitor.tsx` |
| `MoodGraph` | mood_graph.dfy | the chart data of `src/components/MoodGraph.tsx` |
| `StatsCards` | stats_cards.dfy | the dashboard figures of `src/components/StatsCards.tsx` |
| `App` | app.dfy | the state and handlers of `src/App.tsx` |

The model takes the source's own form:

- Pure computations are functions, with lemmas about them.
- Loops in the source are methods with loop invariants, proved against
  specification functions:
  - the regression sums (`Trend.CalculateTrend`);
  - the weekday table (`LocalAI.GroupByWeekday`);
  - the best and worst weekday (`LocalAI.BestDay`, `LocalAI.WorstDay`);
  - the anomaly scan (`LocalAI.FindAnomalies`);
  - the grouping and counting reduces (`MoodGraph.GroupByDate`, `MoodGraph.CountEmotions`);
  - the puts of a save (`EntryStore.SaveToIndexedDB`);
  - the manifest probe (`LlamaClient.ModelBridge.Init`).
- Module-level state that changes in place is a class:
  - the template lists that grow on every feedback (`LocalAI.FeedbackTemplates`);
  - the model bridge's flags and handles (`LlamaClient.ModelBridge`);
  - the two storage tiers (`EntryStore.Storage`);
  - the app's lists and load latch (`App.Dashboard`);
  - the feedback panel's state (`AiFeedbackPanel.Panel`).

The clock, the time zone, `Math.random()` and the outcomes of `fetch`, of the
dynamic import and of the database requests are all parameters:

- `now` is in milliseconds.
- `tz` is a fixed offset in milliseconds.
- `hour` is the local hour.
- `rnd` is a real in [0, 1).
- A `Faults` record says which request fails.

Integers and reals are exact, so floating-point rounding is not modelled.

Three behaviours of the code are worth stating outright:

- For the scores [1, 5, 1, 5, 1, 5, 1] the health score is
  round(((19/7 - 1)/4)·100 − 6·5) = 13, which `LocalAI.HealthExample` proves.
- Multiplying every score by k ≥ 1 keeps an improving or declining trend,
  but not a stable one: the 0.1 dead band is not scale-invariant.
  `Trend.ScaleKeepsDirection` proves the part that holds.
- A save does not always replace the stored list. When the clear fails,
  its error handler queues the puts anyway
  (`src/utils/indexedDB.ts:102-125`). That handler does not prevent the
  error's default action, so IndexedDB aborts the transaction, and the
  queued puts are aborted with it. Their error handlers still resolve the
  save. The store therefore keeps its old records while the backup takes
  the new list (`EntryStore.ClearFailureKeepsStore`,
  `EntryStore.ClearFailureBacksUp`). Likewise, when only the last put of a
  list fails, its own error handler resolves the save before the
  transaction's handler can reject it: the store keeps its old records and
  the backup takes the new list (`EntryStore.LastPutFailureBacksUp`).

## Model

| member | source | states |
|---|---|---|
| Types.ListedScore | src/utils/aiAnalytics.ts:6-12 | the score table maps the five emotions into 1..5, very-sad alone to 1 and very-happy alone to 5 |
| Calendar.Weekday | src/utils/localAI.ts:331-332 | `getDay()` of an instant is a weekday number 0..6 |
| Text.Lower | src/utils/llamaClient.ts:178 | lower-casing keeps the length and maps each character on its own |
| Text.LowerKeepsMatches | src/utils/localAI.ts:191 | for a keyword without ASCII letters, matching the lower-cased text is the same as matching the text |
| Text.Join | src/components/AIFeedback.tsx:64-67 | joining nothing gives the empty string; joining one part gives that part |
| Seqs.Take | src/utils/localAI.ts:93 | `slice(0, n)` is the prefix of length min(n, length) |
| Seqs.TakeLast | src/components/MoodGraph.tsx:66 | `slice(-n)` is the suffix of length min(n, length) |
| Seqs.Max | src/utils/localAI.ts:88 | `Math.max(...scores)` is one of the scores and no score exceeds it |
| Seqs.Min | src/utils/localAI.ts:89 | `Math.min(...scores)` is one of the scores and no score is below it |
| Seqs.DedupeSpec | src/utils/localAI.ts:197 | `[...new Set(xs)]` has no repeats and holds exactly the elements of xs |
| Seqs.DedupeAppend | src/utils/localAI.ts:197 | appending only elements already present leaves the de-duplicated list unchanged |
| Seqs.Pick | src/utils/localAI.ts:231-232 | `xs[Math.floor(Math.random() * xs.length)]` is an element of a non-empty xs |
| Seqs.SumAppend | src/utils/localAI.ts:84 | the sum of a concatenation is the sum of the sums |
| Seqs.SumBounds | src/utils/localAI.ts:84 | scores within [lo, hi] have a sum within [n·lo, n·hi] |
| Seqs.DistinctPermutation | src/utils/indexedDB.ts:136-139 | two repeat-free lists with the same elements are permutations of each other |
| Keys.BelowTransitive | src/utils/indexedDB.ts:136 | the key order `getAll` uses is transitive |
| Keys.BelowTotal | src/utils/indexedDB.ts:136 | any two different keys are ordered one way or the other |
| Keys.BelowIrreflexive | src/utils/indexedDB.ts:136 | no key is below itself |
| Keys.BelowAsymmetric | src/utils/indexedDB.ts:136 | two keys are never each below the other |
| Keys.LeastExists | src/utils/indexedDB.ts:136 | every non-empty key set has a least key |
| Keys.LeastUnique | src/utils/indexedDB.ts:136 | the least key is unique |
| Keys.Least | src/utils/indexedDB.ts:136 | the key chosen first is the least one of the set |
| Keys.KeyOrder | src/utils/indexedDB.ts:136 | the keys listed are exactly the stored keys |
| Keys.KeyOrderSpec | src/utils/indexedDB.ts:136 | the keys are listed in strictly ascending order, without repeats |
| Trend.SumXClosed | src/utils/localAI.ts:170-171 | 2·sumX = n(n − 1) |
| Trend.SumX2Closed | src/utils/localAI.ts:170-174 | 6·sumX2 = (n − 1)n(2n − 1) |
| Trend.DenominatorClosed | src/utils/localAI.ts:177 | 12·(n·sumX2 − sumX²) = n²(n² − 1) |
| Trend.DenominatorPositive | src/utils/localAI.ts:177 | the slope's denominator is positive from two scores on, so the division is defined |
| Trend.DenominatorPolynomial | src/utils/localAI.ts:177 | the closed forms of sumX and sumX2 give the denominator n²(n² − 1)/12 |
| Trend.ClassifyQuotient | src/utils/localAI.ts:179-180 | with a positive denominator, the ±0.1 dead band is a test on the numerator |
| Trend.QuotientOrder | src/utils/localAI.ts:179-180 | with a positive denominator, comparing the slope with a constant is comparing the numerator with that constant times the denominator |
| Trend.Classify | src/utils/localAI.ts:159-181 | no contract of its own; the closed-form `calculateTrend`; `Trend.ClassifyBySign` states its three outcomes and `Trend.CalculateTrend` proves the loop equal to it |
| Trend.ClassifyBySign | src/utils/localAI.ts:177-180 | the trend is stable, improving or declining exactly as 10·N lies inside (−D, D), at or above D, or at or below −D |
| Trend.ShortIsStable | src/utils/localAI.ts:162 | fewer than two scores are stable |
| Trend.ShiftSums | src/utils/localAI.ts:172-173 | adding c to every score adds n·c to sumY and sumX·c to sumXY |
| Trend.ShiftInvariant | src/utils/localAI.ts:177-180 | adding a constant to every score never changes the trend |
| Trend.ScaleSums | src/utils/localAI.ts:172-173 | multiplying every score by k multiplies sumY and sumXY by k |
| Trend.ScaleNumerator | src/utils/localAI.ts:177 | scaling the scores by k scales the slope's numerator by k |
| Trend.ScaleKeepsBand | src/utils/localAI.ts:179-180 | a factor k ≥ 1 keeps a numerator outside the dead band on the same side |
| Trend.ScaleKeepsDirection | src/utils/localAI.ts:177-180 | a factor k ≥ 1 keeps an improving or declining trend |
| Trend.CalculateTrend | src/utils/localAI.ts:159-181 | the one-pass loop computes `Classify`; fewer than two scores give stable |
| Trend.ConstantIsStable | src/utils/localAI.ts:177-180 | constant scores are stable |
| Trend.ExampleRising | src/utils/localAI.ts:159-181 | [1, 2, 3, 4, 5] is improving |
| Trend.ExampleFalling | src/utils/localAI.ts:159-181 | [5, 4, 3, 2, 1] is declining |
| Trend.ExampleFlat | src/utils/localAI.ts:159-181 | [3, 3, 3, 3] and [3] are stable |
| LocalAI.Score | src/utils/localAI.ts:81-83 | an emotion outside the table scores 3; every score is in 1..5 |
| LocalAI.Scores | src/utils/localAI.ts:81-83 | one score per entry, in entry order |
| LocalAI.MoodsWithScoreSpec | src/utils/localAI.ts:90-97 | the filtered moods are exactly the moods of the entries with the target score; the list is non-empty when such an entry exists |
| LocalAI.MoodsWithScoreAppend | src/utils/localAI.ts:90-92 | the filter-then-map distributes over concatenation, so it keeps input order and multiplicity |
| LocalAI.MoodsWithScoreOne | src/utils/localAI.ts:90-92 | one entry contributes its mood iff it has the target score |
| LocalAI.MoodsWithScorePositions | src/utils/localAI.ts:90-92 | one mood per entry with the target score, in input order: the entry with k matching entries before it gives the k-th mood |
| LocalAI.FirstMatches | src/utils/localAI.ts:90-93 | `slice(0, n)` of the filtered moods holds the moods of the first n matching entries, in input order |
| LocalAI.AnalyzeWithLocalAI | src/utils/localAI.ts:67-154 | no contract of its own; stated by `LocalAI.LocalAnalysisShape`, `LocalAI.EmptyLocalAnalysis`, `LocalAI.LocalPeaksAndDips` and `LocalAI.LocalInsightsAndRecommendations` |
| LocalAI.LocalAnalysisShape | src/utils/localAI.ts:67-154 | peaks, dips and insights are non-empty exactly when there are entries; peaks and dips hold at most 3 items; there are 1 to 3 recommendations |
| LocalAI.EmptyLocalAnalysis | src/utils/localAI.ts:70-78 | no entries give the fixed no-data answer |
| LocalAI.LocalPeaksAndDips | src/utils/localAI.ts:88-97 | the peaks are the moods of the first three entries at the highest score, one per entry in input order, and the dips those of the first three at the lowest; a single entry is both its own peak and its own dip |
| LocalAI.TimeSuggestion | src/utils/localAI.ts:123-135 | no contract of its own; the advice for the hour; `LocalAI.LocalRecommendationsSpec` states that it always comes last and is neither rest nor exercise advice |
| LocalAI.LocalRecommendations | src/utils/localAI.ts:103-135 | no contract of its own; stated by `LocalAI.LocalRecommendationsSpec` |
| LocalAI.Narrative | src/utils/localAI.ts:137-145 | no contract of its own; the narrative of each trend; `LocalAI.LocalInsightsAndRecommendations` and `LocalAI.NarrativePools` state how it follows the trend |
| LocalAI.LocalRecommendationsSpec | src/utils/localAI.ts:104-135 | rest advice iff the average is below 3; exercise advice iff declining; the hour's advice always comes last; at most 3 items, so the slice cuts nothing |
| LocalAI.LocalInsightsAndRecommendations | src/utils/localAI.ts:99-151 | the average insight first, then the trend insight unless stable; the recommendations are never cut; the narrative follows the trend |
| LocalAI.FeelingsDistinct | src/utils/localAI.ts:11-17 | the five keyword categories are distinct |
| LocalAI.KeywordHitsSpec | src/utils/localAI.ts:190-194 | the inner loop pushes only its own category, and pushes something iff one of its keywords occurs |
| LocalAI.PushedSpec | src/utils/localAI.ts:189-197 | de-duplicating the pushed categories gives the mentioned categories in category order |
| LocalAI.MentionedSpec | src/utils/localAI.ts:189-197 | a category is mentioned iff one of its keywords occurs in the text |
| LocalAI.KeywordsCaseless | src/utils/localAI.ts:11-17 | no keyword contains an ASCII letter |
| LocalAI.MentionedLower | src/utils/localAI.ts:191 | lower-casing the text changes no keyword match |
| LocalAI.DetectEmotionKeywords | src/utils/localAI.ts:186-199 | no contract of its own; stated by `LocalAI.DetectEmotionKeywordsSpec` |
| LocalAI.DetectEmotionKeywordsSpec | src/utils/localAI.ts:186-198 | the detected categories have no repeats, come in category order, and are exactly those with a keyword in the text |
| LocalAI.DetectOver | src/utils/localAI.ts:186-198 | the same over any repeat-free list of categories |
| LocalAI.Bonus | src/utils/localAI.ts:220-229 | no entries add no templates |
| LocalAI.FeedbackTemplates.constructor | src/utils/localAI.ts:20-44 | the improving, declining and stable lists start with three templates each |
| LocalAI.FeedbackTemplates.GenerateLocalAIFeedback | src/utils/localAI.ts:203-240 | the chosen list grows by the bonus templates for good and the other lists stay; the message comes from the grown list; the type is encouragement iff the narrative says 좋아지; the confidence is 0.85 |
| LocalAI.NarrativePools | src/utils/localAI.ts:138-145 | each narrative selects the template list of its own trend; only the improving narrative gives an encouragement; the no-data narrative selects the stable list |
| LocalAI.SuggestActivities | src/utils/localAI.ts:245-263 | three suggestions |
| LocalAI.ActivitiesByBand | src/utils/localAI.ts:245-263 | two averages get the same suggestions iff they fall in the same band (< 2, [2, 3), ≥ 3) |
| LocalAI.SuggestDailyGoal | src/utils/localAI.ts:268-301 | no contract of its own; stated by `LocalAI.TodayScoresSpec` and `LocalAI.DailyGoalUsesToday` |
| LocalAI.TodayScoresSpec | src/utils/localAI.ts:273-281 | nothing is scored today iff no entry is on today's local date |
| LocalAI.DailyGoalUsesToday | src/utils/localAI.ts:268-301 | with history, the first-entry prompt appears iff nothing is dated today; an entry from another day never changes the goal |
| LocalAI.DayScoresSpec | src/utils/localAI.ts:329-335 | a weekday has scores iff some entry falls on it |
| LocalAI.WeekdayGroupsSpec | src/utils/localAI.ts:329-335 | every entry's weekday has a group; only weekdays 0..6 do, and none is empty |
| LocalAI.BestAndWorstUnique | src/utils/localAI.ts:345-346 | the best and the worst weekday are each determined uniquely |
| LocalAI.GroupByWeekday | src/utils/localAI.ts:329-335 | the loop builds exactly the weekday table |
| LocalAI.BestDay | src/utils/localAI.ts:337-345 | the highest weekday mean, the smallest weekday on ties, as the stable sort gives |
| LocalAI.WorstDay | src/utils/localAI.ts:337-346 | the lowest weekday mean, the smallest weekday on ties |
| LocalAI.Jumps | src/utils/localAI.ts:360-362 | the jump indices lie in 1 .. n − 1 |
| LocalAI.JumpsSpec | src/utils/localAI.ts:360-362 | i is a jump iff the score moves by 2 or more from i − 1 to i; jumps are ascending |
| LocalAI.DatesAt | src/utils/localAI.ts:363-365 | one date per jump |
| LocalAI.FindAnomalies | src/utils/localAI.ts:359-367 | the loop records the local date of every jump, in order |
| LocalAI.Clamp | src/utils/localAI.ts:370-376 | the health value is clamped into [0, 100] and unchanged inside it |
| LocalAI.Round | src/utils/localAI.ts:396 | `Math.round` is within half a unit, halves rounding up |
| LocalAI.HealthScore | src/utils/localAI.ts:370-376 | the health score is an integer in 0..100 |
| LocalAI.ImprovementSuggestions | src/utils/localAI.ts:379-390 | no contract of its own; stated by `LocalAI.ImprovementSuggestionsSpec` |
| LocalAI.ImprovementSuggestionsSpec | src/utils/localAI.ts:379-390 | two suggestions below 2.5, two others in [2.5, 3.5), none above; stress advice iff more than 30% of the entries follow a jump |
| LocalAI.AdvancedPatternAnalysis | src/utils/localAI.ts:307-398 | below seven entries, the fixed answer; otherwise the best and worst weekday with their means, the first five anomalies, and the health score and suggestions from all anomalies |
| LocalAI.HealthExample | src/utils/localAI.ts:360-376 | [1, 5, 1, 5, 1, 5, 1] has six jumps and a health score of 13 |
| AiAnalytics.Recent | src/utils/aiAnalytics.ts:29-31 | no contract of its own; stated by `AiAnalytics.RecentSpec`, `AiAnalytics.RecentAppend` and `AiAnalytics.RecentOne` |
| AiAnalytics.RecentSpec | src/utils/aiAnalytics.ts:29-31 | the window holds exactly the entries dated at or after now − 7 days, and is empty iff every entry is older |
| AiAnalytics.RecentAppend | src/utils/aiAnalytics.ts:31 | the window filter distributes over concatenation, so it keeps input order and multiplicity |
| AiAnalytics.RecentOne | src/utils/aiAnalytics.ts:29-31 | one entry is kept iff it is dated at or after the cut-off |
| AiAnalytics.ToRecords | src/utils/aiAnalytics.ts:44 | one record per entry, in order |
| AiAnalytics.WeeklyRecommendations | src/utils/aiAnalytics.ts:58-80 | no contract of its own; stated by `AiAnalytics.WeeklyInsightsAndRecommendations` |
| AiAnalytics.AnalyzeWindow | src/utils/aiAnalytics.ts:43-96 | at most two recommendations |
| AiAnalytics.AnalyzeEmotionalTrend | src/utils/aiAnalytics.ts:15-97 | at most two recommendations on every path |
| AiAnalytics.FixedAnswers | src/utils/aiAnalytics.ts:18-41 | no entries and an empty window give two different fixed answers |
| AiAnalytics.WindowIsInclusive | src/utils/aiAnalytics.ts:29-31 | an entry older than the cut-off never changes the analysis; one exactly at the cut-off takes part |
| AiAnalytics.WeeklyPeaksAndDips | src/utils/aiAnalytics.ts:48-56 | one peak per in-window entry at the highest score, in input order and without a cap, and nothing else; dips the same at the lowest |
| AiAnalytics.WeeklyInsightsAndRecommendations | src/utils/aiAnalytics.ts:58-88 | rest advice iff the average is below 3; exercise advice iff declining; the narrative follows the trend; the average insight first, then the trend insight unless stable |
| AiAnalytics.GenerateAIFeedback | src/utils/aiAnalytics.ts:125-142 | the message comes from the insights and recommendations, or is the fallback line when both are empty; encouragement iff the narrative contains 좋아; confidence 0.8 |
| AiAnalytics.EncouragementIffImproving | src/utils/aiAnalytics.ts:81-88 | over this analyser's narratives, encouragement iff the window is non-empty and improving |
| AiAnalytics.EvaluateGoalProgress | src/utils/aiAnalytics.ts:145-164 | no contract of its own; stated by `AiAnalytics.EvaluateGoalProgressSpec` |
| AiAnalytics.EvaluateGoalProgressSpec | src/utils/aiAnalytics.ts:145-164 | the congratulation comes iff the target is reached; for a positive target, more progress never gives a lower bucket |
| AiAnalytics.DivideByPositive | src/utils/aiAnalytics.ts:150-151 | dividing by a positive pace keeps the order of two progress rates |
| EntryStore.ReadDate | src/utils/indexedDB.ts:194 | a missing date reads back as now; a stored one reads back as itself |
| EntryStore.DecodeEmotion | src/utils/indexedDB.ts:192-195 | decoding keeps the id and inverts encoding |
| EntryStore.DecodeGoal | src/utils/indexedDB.ts:286-290 | decoding keeps the id and inverts encoding |
| EntryStore.EncodeEmotions | src/utils/indexedDB.ts:152-155 | one stored record per entry, in order |
| EntryStore.DecodeEmotions | src/utils/indexedDB.ts:192-195 | one entry per stored record, in order |
| EntryStore.EncodeGoals | src/utils/indexedDB.ts:237-245 | one stored record per goal, in order |
| EntryStore.DecodeGoals | src/utils/indexedDB.ts:286-290 | one goal per stored record, in order |
| EntryStore.ParseEmotions | src/utils/indexedDB.ts:206-210 | only a serialised emotion list parses |
| EntryStore.ParseGoals | src/utils/indexedDB.ts:301-306 | only a serialised goal list parses |
| EntryStore.UpsertSpec | src/utils/indexedDB.ts:68-69 | after the puts, the keys are the old keys and the new ones; an untouched key keeps its value; the last record with a key wins |
| EntryStore.UpsertKeeps | src/utils/indexedDB.ts:68-69 | puts keep every record stored under its own id |
| EntryStore.PrimarySave | src/utils/indexedDB.ts:41-127 | no contract of its own; the store and settlement of one save for each fault pattern; stated by `EntryStore.SaveReplacesAll`, `EntryStore.ClearFailureKeepsStore`, `EntryStore.PrimaryChangesOnlyOnSuccess`, `EntryStore.FailureFallsBack` and `EntryStore.LastPutFailureBacksUp` |
| EntryStore.SaveToIndexedDB | src/utils/indexedDB.ts:41-127 | the put loop gives the store and the settlement of `PrimarySave` for every fault pattern: a failing put at position p restores the old records, resolving iff p is the last position |
| EntryStore.SaveReplacesAll | src/utils/indexedDB.ts:54-100 | a save without faults resolves, and the store then holds exactly the new records under their keys |
| EntryStore.ClearFailureKeepsStore | src/utils/indexedDB.ts:102-125 | a failing clear aborts the transaction together with the puts its handler queues; the store keeps its old records and the save resolves |
| EntryStore.ClearFailureBacksUp | src/utils/indexedDB.ts:102-125 | after a failing clear the backup copy takes the new list and timestamp while the store keeps the old records |
| EntryStore.PrimaryChangesOnlyOnSuccess | src/utils/indexedDB.ts:41-127 | the store changes only on a resolved non-empty save whose clear and puts succeed; a rejected save leaves it unchanged |
| EntryStore.Listing | src/utils/indexedDB.ts:136-139 | `getAll` lists one record per key, in ascending key order |
| EntryStore.ListingSpec | src/utils/indexedDB.ts:136-139 | every stored record is listed and only those; the listing is empty iff the store is |
| EntryStore.LoadFallbackOrder | src/utils/indexedDB.ts:186-232 | a non-empty primary wins; an empty primary never reads the last-resort copy; a failed read takes the backup, and the last-resort copy only when the backup is missing |
| EntryStore.UnparseableGivesNothing | src/utils/indexedDB.ts:203-230 | a backup that does not parse gives the empty list, never a failure |
| EntryStore.KeyedListing | src/utils/indexedDB.ts:136-139 | records listed from a store keyed by id have distinct ids |
| EntryStore.FreshUpsert | src/utils/indexedDB.ts:56-69 | putting records with distinct keys into a cleared store and listing it gives exactly those records |
| EntryStore.DecodeEncoded | src/utils/indexedDB.ts:192-195 | reading back encoded entries with any clock gives the same entries, without repeats |
| EntryStore.SaveThenLoad | src/utils/indexedDB.ts:149-232 | saving entries with distinct ids and loading them without faults gives a permutation of the entries |
| EntryStore.Storage.constructor | src/utils/indexedDB.ts:5-9 | the two stores, localStorage and the faults start as given |
| EntryStore.Storage.SaveEmotions | src/utils/indexedDB.ts:149-183 | the primary save, then the backup and its timestamp after success, or the last-resort copy and its flag after failure; goals untouched |
| EntryStore.Storage.SaveGoals | src/utils/indexedDB.ts:235-278 | the same steps over the goal store; emotions untouched |
| EntryStore.Storage.LoadEmotions | src/utils/indexedDB.ts:186-232 | no contract of its own; stated by `EntryStore.LoadFallbackOrder`, `EntryStore.SaveThenLoad` and `EntryStore.DeleteAllThenLoad` |
| EntryStore.Storage.LoadGoals | src/utils/indexedDB.ts:281-329 | no contract of its own; the same tiers as `loadEmotions` over the goal store, stated by `EntryStore.LoadFallbackOrder` |
| EntryStore.Storage.ExportAllData | src/utils/indexedDB.ts:332-339 | both loads |
| EntryStore.Storage.GetDBStats | src/utils/indexedDB.ts:356-369 | the lengths of both loads and the current time |
| EntryStore.Storage.DeleteAllData | src/utils/indexedDB.ts:342-353 | both stores cleared and both backup keys removed, the last-resort copies kept; nothing changes when the database does not open |
| EntryStore.EmptySaveStillBacksUp | src/utils/indexedDB.ts:45-48 | an empty save leaves the primary store alone but still overwrites the backup with the empty list |
| EntryStore.FailureFallsBack | src/utils/indexedDB.ts:41-182 | a save fails iff the database does not open, or the clear succeeds and a put other than the last one fails; then the list goes to the last-resort key with its flag and the backup stays |
| EntryStore.LastPutFailureBacksUp | src/utils/indexedDB.ts:83-88 | when only the last put fails, its handler resolves the save: the abort keeps the old records while the backup takes the new list and timestamp |
| EntryStore.DeleteAllThenLoad | src/utils/indexedDB.ts:342-353 | after deleting, a load finds nothing while the database reads; a failed read brings back the last-resort copy |
| LlamaClient.ModelBridge.constructor | src/utils/llamaClient.ts:7-14 | nothing is initialised or available at module load |
| LlamaClient.ModelBridge.Init | src/utils/llamaClient.ts:16-108 | probes at most once; model files iff some manifest path answers; available iff there are model files, an import, and a pipeline that builds whenever one exists; which runtime and model handle are then held |
| LlamaClient.ModelBridge.IsAvailable | src/utils/llamaClient.ts:212-214 | available only with model files and a runtime handle |
| LlamaClient.ModelBridge.Status | src/utils/llamaClient.ts:216-228 | the status mirrors the flags; a loaded model implies a runtime, which implies model files |
| LlamaClient.ModelBridge.GenerateResponse | src/utils/llamaClient.ts:114-167 | no contract of its own; `Respond` on the bridge's current handles, stated by `LlamaClient.Respond`, `LlamaClient.CallableStringWins` and `LlamaClient.NoHandlesUsesRules` |
| LlamaClient.Normalise | src/utils/llamaClient.ts:123-127 | a string reply is taken as it is; any other reply yields only non-empty text; `generated_text` only from a callable model |
| LlamaClient.ModelReply | src/utils/llamaClient.ts:118-156 | no handles give no reply |
| LlamaClient.Respond | src/utils/llamaClient.ts:114-167 | a model reply wins; otherwise the rule-based pool answers |
| LlamaClient.CallableStringWins | src/utils/llamaClient.ts:120-123 | a callable model returning a string is answered with that string |
| LlamaClient.GenerateThrowSkipsRuntime | src/utils/llamaClient.ts:132-156 | a throwing `generate` skips the runtime handles and falls to the rules |
| LlamaClient.CallThrowIsCaught | src/utils/llamaClient.ts:128-145 | a throwing direct call is caught on the spot, and the runtime's `generate` still answers |
| LlamaClient.NoHandlesUsesRules | src/utils/llamaClient.ts:158-163 | without handles the reply is rule-based |
| LlamaClient.WordsCaseless | src/utils/llamaClient.ts:174-176 | no word list contains an ASCII letter |
| LlamaClient.HeardLower | src/utils/llamaClient.ts:178-182 | lower-casing the prompt changes no tone |
| LlamaClient.Pushes | src/utils/llamaClient.ts:180-184 | each tone is pushed iff heard, in positive, negative, neutral order |
| LlamaClient.ExtractKeywords | src/utils/llamaClient.ts:172-185 | the tones listed are exactly those heard, in that order |
| LlamaClient.Pool | src/utils/llamaClient.ts:190-207 | positive replies on a positive tone, else negative replies on a negative tone, else neutral ones; the detail reply is added iff the prompt is longer than 100 |
| LlamaClient.RuleBasedResponse | src/utils/llamaClient.ts:209 | the reply is drawn from the pool |
| LlamaClient.PositiveWins | src/utils/llamaClient.ts:193-198 | a positive word rules out the negative replies |
| AiFeedbackPanel.Records | src/components/AIFeedback.tsx:35-41 | one record per entry, carrying its emotion, date and mood |
| AiFeedbackPanel.Prompt | src/components/AIFeedback.tsx:62-68 | the prompt is at least 98 characters longer than the narrative |
| AiFeedbackPanel.PromptAlwaysDetailed | src/components/AIFeedback.tsx:62-69 | every prompt exceeds 100 characters, so the rule-based pool always holds three replies, the detail reply among them |
| AiFeedbackPanel.Override | src/components/AIFeedback.tsx:70-76 | a usable model with non-empty text replaces the message and sets confidence 0.9; otherwise the feedback stays; type and timestamp always stay |
| AiFeedbackPanel.OverrideKeepsConfidenceRange | src/components/AIFeedback.tsx:70-76 | the override keeps the confidence within [0, 1] |
| AiFeedbackPanel.Panel.constructor | src/components/AIFeedback.tsx:22-25 | no analysis, no feedback, not loading |
| AiFeedbackPanel.Panel.AskModel | src/components/AIFeedback.tsx:59-81 | after the probe, the feedback is the override by the model's reply when the model is available |
| AiFeedbackPanel.Panel.RunAnalysers | src/components/AIFeedback.tsx:35-53 | both analyses are shown; the advanced one is the advanced analysis of the same records (`AdvancedFor`), reporting too little data iff there are fewer than seven entries |
| AiFeedbackPanel.Panel.FeedbackFor | src/components/AIFeedback.tsx:56-83 | the feedback is stamped now; encouragement iff the narrative says 좋아지; the model's reply with 0.9 when available and non-empty, else a template of the trend's list with 0.85 |
| AiFeedbackPanel.Panel.GenerateAnalysis | src/components/AIFeedback.tsx:31-89 | afterwards not loading, the basic and the advanced analysis of the entries shown, and the feedback delivered as above |
| GoalMonitor.HandleProgressChange | src/components/GoalMonitor.tsx:52-58 | progress capped at 100 but not floored; completed iff the request reaches 100; nothing else changes |
| GoalMonitor.IncreaseThenDecrease | src/components/GoalMonitor.tsx:152-167 | below 95, −5 undoes +5 except that the status becomes active; above 95, the cap loses progress |
| GoalMonitor.StatusNotSticky | src/components/GoalMonitor.tsx:52-58 | −5 from 100 reopens a goal; −5 from 0 gives −5, outside the annotated range |
| GoalMonitor.NewGoal | src/components/GoalMonitor.tsx:26-50 | a new goal is active at 0%, created now, and due the given number of days later |
| GoalMonitor.DaysLeft | src/components/GoalMonitor.tsx:60-64 | the days left are the time to the target in days, rounded up |
| GoalMonitor.DaysLeftLabel | src/components/GoalMonitor.tsx:173 | the done label shows iff the target is not in the future; otherwise a positive number of days |
| GoalMonitor.NewGoalDaysLeft | src/components/GoalMonitor.tsx:26-64 | a goal made today for n days shows n days left, and is done iff n ≤ 0 |
| MoodGraph.YearsShareAGroup | src/components/MoodGraph.tsx:42 | the MM/dd key drops the year: 1 January 1970 and 1 January 1971 share a group |
| MoodGraph.FirstOfJanuary1970 | src/components/MoodGraph.tsx:42 | day 0 is 1 January 1970 |
| MoodGraph.FirstOfJanuary1971 | src/components/MoodGraph.tsx:42 | day 365 is 1 January 1971 |
| MoodGraph.KeysOf | src/components/MoodGraph.tsx:42 | one key per entry |
| MoodGraph.MembersSpec | src/components/MoodGraph.tsx:43-46 | a group holds exactly the entries with its key |
| MoodGraph.MembersCount | src/components/MoodGraph.tsx:43-46 | a group's size is the number of entries with its key |
| MoodGraph.GroupOpens | src/components/MoodGraph.tsx:43-46 | an entry with a new key opens a group of its own at the end of the order |
| MoodGraph.GroupExtends | src/components/MoodGraph.tsx:46 | an entry with a known key joins the end of its group |
| MoodGraph.GroupByDate | src/components/MoodGraph.tsx:41-48 | the reduce lists the keys by first appearance and maps each to exactly its entries, in order |
| MoodGraph.TalliesPartition | src/components/MoodGraph.tsx:78-83 | tallying every distinct key counts every element exactly once |
| MoodGraph.GroupsCover | src/components/MoodGraph.tsx:41-48 | every entry sits in the group of its own key, and that key is listed |
| MoodGraph.GroupSizes | src/components/MoodGraph.tsx:41-48 | every listed group is non-empty, and the group sizes add up to the number of entries |
| MoodGraph.ListedScores | src/components/MoodGraph.tsx:54 | one score in 1..5 per entry |
| MoodGraph.MeanScore | src/components/MoodGraph.tsx:53-55 | NaN iff some emotion is outside the table; otherwise the score sum over the count, in [1, 5] |
| MoodGraph.PointOf | src/components/MoodGraph.tsx:52-64 | a point carries its key, the mean score, the highest intensity of the group, and the joined moods |
| MoodGraph.Order | src/components/MoodGraph.tsx:51 | no listed key has an empty group |
| MoodGraph.Points | src/components/MoodGraph.tsx:51-65 | one point per group, in first-appearance order |
| MoodGraph.ChartData | src/components/MoodGraph.tsx:51-66 | the points of the last seven groups by first appearance |
| MoodGraph.AvgEmotionScore | src/components/MoodGraph.tsx:68-75 | 0 with no entries, else the mean score of all entries |
| MoodGraph.CountEmotions | src/components/MoodGraph.tsx:79-82 | the reduce counts each emotion present, keyed in first-appearance order |
| MoodGraph.Insert | src/components/MoodGraph.tsx:83 | insertion adds the row to the rows and its count to the total |
| MoodGraph.InsertSorted | src/components/MoodGraph.tsx:83 | insertion keeps descending order |
| MoodGraph.SortByCount | src/components/MoodGraph.tsx:83 | the sort orders by descending count and is a permutation |
| MoodGraph.EmotionDistribution | src/components/MoodGraph.tsx:78-83 | no contract of its own; stated by `MoodGraph.EmotionDistributionSpec` |
| MoodGraph.EmotionDistributionSpec | src/components/MoodGraph.tsx:78-83 | most frequent first; one row per emotion present with its count; the counts sum to the number of entries |
| StatsCards.StatsScore | src/components/StatsCards.tsx:33-42 | the card's table gives angry 2 and other unknown emotions 3 |
| StatsCards.TodayEntries | src/components/StatsCards.tsx:14-22 | exactly the entries on today's local date |
| StatsCards.TodayAppend | src/components/StatsCards.tsx:14-22 | the day filter distributes over concatenation, so it keeps input order and multiplicity |
| StatsCards.TodayOne | src/components/StatsCards.tsx:14-22 | one entry is kept iff it is on today's local date |
| StatsCards.WeekEntries | src/components/StatsCards.tsx:24-29 | exactly the entries of the last seven days; it is the analyser's window, so `AiAnalytics.RecentAppend` gives its order and multiplicity |
| StatsCards.AvgEmotionScore | src/components/StatsCards.tsx:31-46 | 0 with no entries, else the score sum over the count, in [1, 5] |
| StatsCards.MeansAgree | src/components/StatsCards.tsx:31-46 | with every emotion in the table, the card's scores equal the chart's and its average equals the chart's mean score |
| StatsCards.CountStatus | src/components/StatsCards.tsx:48-49 | a status count is at most the number of goals |
| StatsCards.StatusCountsPartition | src/components/StatsCards.tsx:48-49 | the active, completed and paused counts add up to the number of goals |
| StatsCards.AvgProgress | src/components/StatsCards.tsx:50-55 | 0 with no goals, else the mean progress |
| StatsCards.AvgProgressBounds | src/components/StatsCards.tsx:50-55 | goals within 0..100 have a mean within 0..100 |
| StatsCards.RecentTrend | src/components/StatsCards.tsx:58-86 | no contract of its own; stated by `StatsCards.RecentTrendSpec` and `StatsCards.SteadyWeekIsStable` |
| StatsCards.RecentTrendSpec | src/components/StatsCards.tsx:58-86 | fewer than four entries always read as stable; from six entries on, earlier entries do not matter |
| StatsCards.SteadyWeekIsStable | src/components/StatsCards.tsx:58-86 | a week with one score throughout is stable |
| App.Without | src/App.tsx:89 | the filter keeps exactly the items with another id |
| App.WithoutAppend | src/App.tsx:89 | the filter distributes over concatenation, so it keeps the order |
| App.WithoutAbsent | src/App.tsx:89 | removing an id no item has changes nothing |
| App.ReplaceGoal | src/App.tsx:98 | the goal with the updated id is replaced in place; the others stay |
| App.ReplaceGoalSpec | src/App.tsx:97-99 | ids keep their places; an update is idempotent, and a no-op for an unknown id |
| App.Dashboard.constructor | src/App.tsx:20-38 | empty lists, the latch set |
| App.Dashboard.PersistEmotions | src/App.tsx:57-63 | nothing while the latch is set; otherwise the emotion save |
| App.Dashboard.PersistGoals | src/App.tsx:75-81 | nothing while the latch is set; otherwise the goal save |
| App.Dashboard.LoadData | src/App.tsx:40-54 | both lists are loaded, the latch is lifted, and both loaded lists are saved straight back |
| App.Dashboard.AddEmotion | src/App.tsx:83-85 | the entry is appended and the list saved |
| App.Dashboard.DeleteEmotion | src/App.tsx:87-91 | when confirmed, every entry with the id goes and the list is saved; otherwise nothing changes |
| App.Dashboard.AddGoal | src/App.tsx:93-95 | the goal is appended and the list saved |
| App.Dashboard.UpdateGoal | src/App.tsx:97-99 | the goal is replaced by id and the list saved |
| App.Dashboard.DeleteGoal | src/App.tsx:101-105 | when confirmed, every goal with the id goes and the list is saved |
| App.SingleListing | src/utils/indexedDB.ts:136-139 | a store holding one record lists just that record |
| App.DeletingLastEntryReappears | src/App.tsx:57-63 | deleting the only entry does not reach the store, because an empty list is never written, so the next load brings the entry back |

## Left out

- Rendering, CSS, the sidebar, the theme toggle, `alert`/`confirm` dialogs (confirmation is a parameter) and `console` logging are not modelled.
- `src/components/EmotionTracker.tsx` and `src/components/SettingsPanel.tsx` are not part of this model.
- `loadFromStorage` and `saveToStorage` of `aiAnalytics.ts` are not modelled: nothing in the core calls them.
- `initIndexedDB` and its upgrade handler (store and index creation) are not modelled: opening is one fault flag.
- Asynchrony is not modelled: promise interleavings, the `setTimeout` resolution and React's batching of state updates. Effects run one after another, in the order the handlers trigger them.
- Only the first failing put of a save is modelled: it aborts the whole transaction, so no record of the list lands, and whether later puts would have failed makes no difference.
- JSON text and ISO date strings are not modelled: a stored date is an instant or absent, and a localStorage value is text, a serialised list of one collection, or a timestamp. A corrupt value is a value that does not parse.
- Dates are milliseconds in a fixed-offset time zone, so daylight-saving changes are not modelled. `toLocaleDateString` and the `date-fns` "MM/dd" format are local day numbers and (month, day) pairs. The weekly pattern text is a datatype holding the weekday numbers and means.
- Floating point is not modelled: averages, the slope and the health score use exact arithmetic. `toFixed` display rounding is left to rendering.
- `toLowerCase` maps ASCII letters only. Every keyword is Hangul, so no match depends on this (`LocalAI.MentionedLower`, `LlamaClient.HeardLower`). Lengths count characters, not UTF-16 units.
- The dynamic import, `fetch`, the web-llm handles and what they return are outcome datatypes. `lastError` records the kind of failure, not the thrown value.
- The fixed fallback reply of `generateResponse` is not modelled: the rule-based pool is never empty, so that branch cannot be reached.
- LocalAI.AnalyzeWithLocalAI: its properties are stated by lemmas, not by its own contract. `LocalAnalysisShape` gives the list sizes and `EmptyLocalAnalysis` the fixed answer. `LocalPeaksAndDips` gives the peaks and dips in full, with order and multiplicity. `LocalInsightsAndRecommendations` gives the insights, recommendations and narrative.
- AiFeedbackPanel.Panel.GenerateAnalysis: the outer `catch` is not modelled, because no modelled step throws. `loading` is observed only after the call.
- AiFeedbackPanel.Panel: the basic analyser is a constant field set to `LocalAI.AnalyzeWithLocalAI` by the constructor, rather than a direct call.
- Trend.ScaleKeepsDirection: scaling keeps only an improving or declining trend. A stable trend may leave the 0.1 dead band when scaled, so the code does not keep it.
- MoodGraph.SortByCount: an insertion sort stands in for the engine's sort. The model proves order and permutation, but not that the order of equal counts is the one the engine produces.
- MoodGraph.MeanScore: the chart's score table has no default, so an unknown emotion gives NaN. The model keeps NaN as a value, and does not model how NaN propagates through `Math.max` or the chart.
- AiAnalytics.AnalyzeEmotionalTrend: requires every emotion to be in the score table, as the declared entry type promises. The NaN that an unknown emotion would produce is not modelled.
