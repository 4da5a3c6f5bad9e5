/** The chart of `MoodGraph.tsx`: entries grouped by their local "MM/dd"
    day, one point per group for the last seven groups, the overall mean
    score, and how often each emotion occurs, most frequent first. This
    component reads the five-emotion table without a default, so its inputs
    carry listed emotions. */
module MoodGraph {
  import opened Types
  import opened Seqs
  import opened Text
  import opened Calendar

  /** The "MM/dd" label: local month and day of the month, without the year. */
  datatype DayKey = DayKey(month: int, day: int)

  function KeyOf(t: Millis, tz: int): DayKey
  {
    var d := LocalDate(t, tz);
    DayKey(d.month, d.day)
  }

  /** The key the component groups by, for a fixed offset. The grouping below
      takes the key function as a parameter. */
  function DateKey(tz: int): Millis -> DayKey
  {
    t => KeyOf(t, tz)
  }

  lemma FirstOfJanuary1970()
    ensures CivilFromDays(0) == CivilDate(1970, 1, 1)
  {
    assert 719468 / 146097 == 4;
    assert (135080 - 135080 / 1460 + 135080 / 36524 - 135080 / 146096) / 365 == 369;
    assert (5 * 306 + 2) / 153 == 10;
    assert (153 * 10 + 2) / 5 == 306;
  }

  lemma FirstOfJanuary1971()
    ensures CivilFromDays(365) == CivilDate(1971, 1, 1)
  {
    assert 719833 / 146097 == 4;
    assert (135445 - 135445 / 1460 + 135445 / 36524 - 135445 / 146096) / 365 == 370;
    assert (5 * 306 + 2) / 153 == 10;
    assert (153 * 10 + 2) / 5 == 306;
  }

  /** The label drops the year: 1 January 1970 and 1 January 1971 (UTC) fall
      into the same group. */
  lemma YearsShareAGroup()
    ensures KeyOf(0, 0) == KeyOf(365 * MsPerDay, 0) == DayKey(1, 1)
  {
    assert 365 * MsPerDay / MsPerDay == 365;
    FirstOfJanuary1970();
    FirstOfJanuary1971();
  }

  function KeysOf(es: seq<EmotionEntry>, key: Millis -> DayKey): (r: seq<DayKey>)
    ensures |r| == |es| && forall i :: 0 <= i < |es| ==> r[i] == key(es[i].date)
  {
    seq(|es|, i requires 0 <= i < |es| => key(es[i].date))
  }

  /** The entries of one group, in entry order. */
  function Members(es: seq<EmotionEntry>, k: DayKey, key: Millis -> DayKey): seq<EmotionEntry>
  {
    if es == [] then []
    else Members(es[..|es| - 1], k, key) + (if key(es[|es| - 1].date) == k then [es[|es| - 1]] else [])
  }

  /** A group holds exactly the entries with its key. */
  lemma {:induction false} MembersSpec(es: seq<EmotionEntry>, k: DayKey, key: Millis -> DayKey)
    ensures forall e :: e in Members(es, k, key) <==> e in es && key(e.date) == k
  {
    if es != [] {
      var init, last := es[..|es| - 1], es[|es| - 1];
      MembersSpec(init, k, key);
      SplitLast(es);
      assert forall e :: e in es <==> e in init || e == last;
    }
  }

  /** A group holds as many entries as there are entries with its key. */
  lemma {:induction false} MembersCount(es: seq<EmotionEntry>, k: DayKey, key: Millis -> DayKey)
    ensures |Members(es, k, key)| == Count(KeysOf(es, key), k)
  {
    if es != [] {
      var init := es[..|es| - 1];
      MembersCount(init, k, key);
      assert KeysOf(es, key)[..|es| - 1] == KeysOf(init, key);
    }
  }

  /** A key no entry has gets an empty group. */
  lemma MembersAbsent(es: seq<EmotionEntry>, k: DayKey, key: Millis -> DayKey)
    requires k !in KeysOf(es, key)
    ensures Members(es, k, key) == []
  {
  }

  /** `order` lists the keys of es by first appearance, and `groups` maps
      each of them to its members. */
  ghost predicate Grouped(es: seq<EmotionEntry>, key: Millis -> DayKey, order: seq<DayKey>, groups: map<DayKey, seq<EmotionEntry>>)
  {
    && order == Dedupe(KeysOf(es, key))
    && (forall k :: k in groups <==> k in KeysOf(es, key))
    && (forall k :: k in groups ==> groups[k] == Members(es, k, key))
  }

  /** One more entry: one more key. */
  lemma KeysSnoc(es: seq<EmotionEntry>, e: EmotionEntry, key: Millis -> DayKey)
    ensures KeysOf(es + [e], key) == KeysOf(es, key) + [key(e.date)]
  {
  }

  /** One more entry joins its own group only. */
  lemma MembersSnoc(es: seq<EmotionEntry>, e: EmotionEntry, k: DayKey, key: Millis -> DayKey)
    ensures Members(es + [e], k, key) == Members(es, k, key) + (if key(e.date) == k then [e] else [])
  {
    assert (es + [e])[..|es|] == es;
  }

  /** The key order after one more entry. */
  lemma OrderSnoc(es: seq<EmotionEntry>, e: EmotionEntry, key: Millis -> DayKey)
    ensures key(e.date) !in KeysOf(es, key) ==> Dedupe(KeysOf(es + [e], key)) == Dedupe(KeysOf(es, key)) + [key(e.date)]
    ensures key(e.date) in KeysOf(es, key) ==> Dedupe(KeysOf(es + [e], key)) == Dedupe(KeysOf(es, key))
  {
    KeysSnoc(es, e, key);
    DedupeSnoc(KeysOf(es, key), key(e.date));
  }

  /** The domain of the groups after one more entry. */
  lemma DomainSnoc(es: seq<EmotionEntry>, e: EmotionEntry, key: Millis -> DayKey,
                   groups: map<DayKey, seq<EmotionEntry>>, grown: map<DayKey, seq<EmotionEntry>>)
    requires forall k :: k in groups <==> k in KeysOf(es, key)
    requires grown.Keys == groups.Keys + {key(e.date)}
    ensures forall k :: k in grown <==> k in KeysOf(es + [e], key)
  {
    KeysSnoc(es, e, key);
  }

  /** The groups after one more entry, given the groups before it. */
  lemma GroupsSnoc(es: seq<EmotionEntry>, e: EmotionEntry, key: Millis -> DayKey,
                   groups: map<DayKey, seq<EmotionEntry>>, grown: map<DayKey, seq<EmotionEntry>>)
    requires forall k :: k in groups ==> groups[k] == Members(es, k, key)
    requires key(e.date) in grown && grown[key(e.date)] == Members(es, key(e.date), key) + [e]
    requires forall k :: k in grown && k != key(e.date) ==> k in groups && grown[k] == groups[k]
    ensures forall k :: k in grown ==> grown[k] == Members(es + [e], k, key)
  {
    forall j | j in grown
      ensures grown[j] == Members(es + [e], j, key)
    {
      MembersSnoc(es, e, j, key);
    }
  }

  /** An entry with a key not seen before opens a group of its own. */
  lemma GroupOpens(es: seq<EmotionEntry>, e: EmotionEntry, key: Millis -> DayKey, order: seq<DayKey>, groups: map<DayKey, seq<EmotionEntry>>)
    requires Grouped(es, key, order, groups) && key(e.date) !in groups
    ensures Grouped(es + [e], key, order + [key(e.date)], groups[key(e.date) := [e]])
  {
    var k := key(e.date);
    var grown := groups[k := [e]];
    OrderSnoc(es, e, key);
    DomainSnoc(es, e, key, groups, grown);
    MembersAbsent(es, k, key);
    GroupsSnoc(es, e, key, groups, grown);
  }

  /** An entry with a key seen before joins the end of that group. */
  lemma GroupExtends(es: seq<EmotionEntry>, e: EmotionEntry, key: Millis -> DayKey, order: seq<DayKey>, groups: map<DayKey, seq<EmotionEntry>>)
    requires Grouped(es, key, order, groups) && key(e.date) in groups
    ensures Grouped(es + [e], key, order, groups[key(e.date) := groups[key(e.date)] + [e]])
  {
    var k := key(e.date);
    var grown := groups[k := groups[k] + [e]];
    OrderSnoc(es, e, key);
    DomainSnoc(es, e, key, groups, grown);
    GroupsSnoc(es, e, key, groups, grown);
  }

  /** `groupedByDate`: the reduce that pushes each entry onto its day's list,
      creating the list on first sight; keys keep their first-appearance
      order. */
  method GroupByDate(es: seq<EmotionEntry>, key: Millis -> DayKey) returns (order: seq<DayKey>, groups: map<DayKey, seq<EmotionEntry>>)
    ensures order == Dedupe(KeysOf(es, key))
    ensures forall k :: k in groups <==> k in order
    ensures forall k :: k in groups ==> groups[k] == Members(es, k, key)
  {
    order, groups := [], map[];
    for i := 0 to |es|
      invariant Grouped(es[..i], key, order, groups)
    {
      var k := key(es[i].date);
      assert es[..i + 1] == es[..i] + [es[i]];
      if k !in groups {
        GroupOpens(es[..i], es[i], key, order, groups);
        order := order + [k];
        groups := groups[k := [es[i]]];
      } else {
        GroupExtends(es[..i], es[i], key, order, groups);
        groups := groups[k := groups[k] + [es[i]]];
      }
    }
    assert es[..|es|] == es;
    DedupeSpec(KeysOf(es, key));
  }

  // ---------------------------------------------------------------------------
  // Tallies: a key with a count, as `Object.entries` lists a counting object

  datatype Tally<K> = Tally(key: K, count: nat)

  /** One tally per key, counting the key's occurrences in xs. */
  function Tallies<K(==)>(xs: seq<K>, ks: seq<K>): (r: seq<Tally<K>>)
    ensures |r| == |ks| && forall i :: 0 <= i < |ks| ==> r[i] == Tally(ks[i], Count(xs, ks[i]))
  {
    seq(|ks|, i requires 0 <= i < |ks| => Tally(ks[i], Count(xs, ks[i])))
  }

  function SumCounts<K>(ts: seq<Tally<K>>): nat
  {
    if ts == [] then 0 else ts[0].count + SumCounts(ts[1..])
  }

  lemma {:induction false} SumCountsSnoc<K>(ts: seq<Tally<K>>, t: Tally<K>)
    ensures SumCounts(ts + [t]) == SumCounts(ts) + t.count
  {
    if ts != [] {
      assert (ts + [t])[1..] == ts[1..] + [t];
      SumCountsSnoc(ts[1..], t);
    }
  }

  /** One more element adds one to the total of the keys that include it. */
  lemma {:induction false} TalliesGrow<K>(xs: seq<K>, x: K, ks: seq<K>)
    requires NoDuplicates(ks)
    ensures SumCounts(Tallies(xs + [x], ks)) == SumCounts(Tallies(xs, ks)) + (if x in ks then 1 else 0)
  {
    if ks != [] {
      assert Tallies(xs + [x], ks)[1..] == Tallies(xs + [x], ks[1..]);
      assert Tallies(xs, ks)[1..] == Tallies(xs, ks[1..]);
      assert (xs + [x])[..|xs|] == xs;
      assert x in ks <==> x == ks[0] || x in ks[1..];
      TalliesGrow(xs, x, ks[1..]);
    }
  }

  lemma {:induction false} CountAbsent<K>(xs: seq<K>, x: K)
    requires x !in xs
    ensures Count(xs, x) == 0
  {
    if xs != [] {
      CountAbsent(xs[..|xs| - 1], x);
    }
  }

  /** Tallying every distinct key accounts for every element exactly once. */
  lemma {:induction false} TalliesPartition<K>(xs: seq<K>)
    ensures SumCounts(Tallies(xs, Dedupe(xs))) == |xs|
  {
    if xs != [] {
      var init := xs[..|xs| - 1];
      var x := xs[|xs| - 1];
      assert xs == init + [x];
      var d := Dedupe(init);
      TalliesPartition(init);
      DedupeSpec(init);
      TalliesGrow(init, x, d);
      if x !in d {
        assert Tallies(xs, d + [x]) == Tallies(xs, d) + [Tally(x, Count(xs, x))];
        SumCountsSnoc(Tallies(xs, d), Tally(x, Count(xs, x)));
        CountAbsent(init, x);
      }
    }
  }

  /** Every entry sits in the group of its own key, and that key is listed. */
  lemma GroupsCover(es: seq<EmotionEntry>, key: Millis -> DayKey)
    ensures forall i :: 0 <= i < |es| ==> key(es[i].date) in Dedupe(KeysOf(es, key)) && es[i] in Members(es, key(es[i].date), key)
  {
    var keys := KeysOf(es, key);
    DedupeSpec(keys);
    forall i | 0 <= i < |es|
      ensures key(es[i].date) in Dedupe(keys) && es[i] in Members(es, key(es[i].date), key)
    {
      assert keys[i] in keys;
      MembersSpec(es, keys[i], key);
    }
  }

  /** Each listed group holds as many entries as carry its key, at least one,
      and the group sizes add up to the number of entries. */
  lemma GroupSizes(es: seq<EmotionEntry>, key: Millis -> DayKey)
    ensures forall k :: k in Dedupe(KeysOf(es, key)) ==> |Members(es, k, key)| == Count(KeysOf(es, key), k) > 0
    ensures SumCounts(Tallies(KeysOf(es, key), Dedupe(KeysOf(es, key)))) == |es|
  {
    var keys := KeysOf(es, key);
    DedupeSpec(keys);
    TalliesPartition(keys);
    forall k | k in Dedupe(keys) ensures |Members(es, k, key)| == Count(keys, k) > 0 {
      MembersCount(es, k, key);
      MembersSpec(es, k, key);
      var i :| 0 <= i < |keys| && keys[i] == k;
      assert es[i] in Members(es, k, key);
    }
  }

  // ---------------------------------------------------------------------------
  // chartData

  function ListedScores(es: seq<EmotionEntry>): (r: seq<int>)
    requires AllListed(es)
    ensures |r| == |es| && forall i :: 0 <= i < |es| ==> 1 <= r[i] <= 5 && r[i] == ListedScore(es[i].emotion)
  {
    seq(|es|, i requires 0 <= i < |es| && AllListed(es) => ListedScore(es[i].emotion))
  }

  function Intensities(es: seq<EmotionEntry>): (r: seq<int>)
    ensures |r| == |es| && forall i :: 0 <= i < |es| ==> r[i] == es[i].intensity
  {
    seq(|es|, i requires 0 <= i < |es| => es[i].intensity)
  }

  function Moods(es: seq<EmotionEntry>): (r: seq<string>)
    ensures |r| == |es| && forall i :: 0 <= i < |es| ==> r[i] == es[i].mood
  {
    seq(|es|, i requires 0 <= i < |es| => es[i].mood)
  }

  /** A mean score. The score table has no default, so one entry with an
      emotion outside it turns the sum, and the mean, into NaN. */
  datatype Score = Num(value: real) | NaN

  /** The mean score of a non-empty list of entries. */
  function MeanScore(es: seq<EmotionEntry>): (r: Score)
    requires es != []
    ensures r == NaN <==> exists e :: e in es && !e.emotion.Listed()
    ensures r.Num? ==> 1.0 <= r.value <= 5.0
    ensures r.Num? ==> r.value * |es| as real == Sum(ListedScores(es)) as real
  {
    if AllListed(es) then
      var s := ListedScores(es);
      SumBounds(s, 1, 5);
      MeanBounds(Sum(s), |s|, 1, 5);
      Num(Sum(s) as real / |s| as real)
    else NaN
  }

  datatype ChartPoint = ChartPoint(date: DayKey, avgScore: Score, intensity: int, mood: string)

  /** One point: the group's mean score, its highest intensity, and its moods
      joined with ", " in entry order. */
  function PointOf(k: DayKey, group: seq<EmotionEntry>): (p: ChartPoint)
    requires group != []
    ensures p.date == k && p.avgScore == MeanScore(group)
    ensures p.intensity in Intensities(group) && forall e :: e in group ==> e.intensity <= p.intensity
    ensures p.mood == Join(Moods(group), ", ")
  {
    ChartPoint(k, MeanScore(group), Max(Intensities(group)), Join(Moods(group), ", "))
  }

  /** The keys in first-appearance order; none of them has an empty group. */
  function Order(es: seq<EmotionEntry>, key: Millis -> DayKey): (order: seq<DayKey>)
    ensures forall k :: k in order ==> Members(es, k, key) != []
  {
    var keys := KeysOf(es, key);
    DedupeSpec(keys);
    assert forall k :: k in Dedupe(keys) ==> Members(es, k, key) != [] by {
      forall k | k in Dedupe(keys) ensures Members(es, k, key) != [] {
        MembersSpec(es, k, key);
        var i :| 0 <= i < |keys| && keys[i] == k;
        assert es[i] in Members(es, k, key);
      }
    }
    Dedupe(keys)
  }

  /** Every group in first-appearance order, one point each. */
  function Points(es: seq<EmotionEntry>, key: Millis -> DayKey): (r: seq<ChartPoint>)
    ensures |r| == |Order(es, key)|
    ensures forall i :: 0 <= i < |r| ==> r[i] == PointOf(Order(es, key)[i], Members(es, Order(es, key)[i], key))
  {
    var order := Order(es, key);
    seq(|order|, i requires 0 <= i < |order| && Members(es, order[i], key) != [] =>
      PointOf(order[i], Members(es, order[i], key)))
  }

  /** `chartData`: the points of the last seven groups by first appearance,
      which need not be the seven latest days. */
  function ChartData(es: seq<EmotionEntry>, key: Millis -> DayKey): (r: seq<ChartPoint>)
    ensures |r| == if |Order(es, key)| <= 7 then |Order(es, key)| else 7
    ensures forall i :: 0 <= i < |r| ==>
      var k := Order(es, key)[|Order(es, key)| - |r| + i];
      r[i] == PointOf(k, Members(es, k, key))
  {
    TakeLast(Points(es, key), 7)
  }

  /** `avgEmotionScore`: 0 with no entries, otherwise the mean over all of them. */
  function AvgEmotionScore(es: seq<EmotionEntry>): (r: Score)
    ensures es == [] ==> r == Num(0.0)
    ensures es != [] ==> r == MeanScore(es)
  {
    if es == [] then Num(0.0) else MeanScore(es)
  }

  // ---------------------------------------------------------------------------
  // emotionDistribution

  function EmotionsOf(es: seq<EmotionEntry>): (r: seq<Emotion>)
    ensures |r| == |es| && forall i :: 0 <= i < |es| ==> r[i] == es[i].emotion
  {
    seq(|es|, i requires 0 <= i < |es| => es[i].emotion)
  }

  /** The reduce that bumps `acc[e.emotion]` for every entry. */
  method CountEmotions(es: seq<EmotionEntry>) returns (order: seq<Emotion>, counts: map<Emotion, nat>)
    ensures order == Dedupe(EmotionsOf(es))
    ensures forall k :: k in counts <==> k in order
    ensures forall k :: k in counts ==> counts[k] == Count(EmotionsOf(es), k)
  {
    order, counts := [], map[];
    ghost var xs := EmotionsOf(es);
    for i := 0 to |es|
      invariant order == Dedupe(xs[..i])
      invariant forall k :: k in counts <==> k in order
      invariant forall k :: k in counts ==> counts[k] == Count(xs[..i], k)
    {
      var k := es[i].emotion;
      assert xs[..i + 1] == xs[..i] + [k];
      assert xs[..i + 1][..i] == xs[..i];
      if k !in counts {
        order := order + [k];
        counts := counts[k := 1];
        DedupeSpec(xs[..i]);
        CountAbsent(xs[..i], k);
      } else {
        counts := counts[k := counts[k] + 1];
      }
    }
    assert xs[..|es|] == xs;
  }

  /** Inserts a row after every row with at least its count. */
  function Insert<K>(t: Tally<K>, sorted: seq<Tally<K>>): (r: seq<Tally<K>>)
    ensures multiset(r) == multiset(sorted) + multiset{t}
    ensures SumCounts(r) == SumCounts(sorted) + t.count
  {
    if sorted == [] then [t]
    else if sorted[0].count < t.count then [t] + sorted
    else
      assert sorted == [sorted[0]] + sorted[1..];
      [sorted[0]] + Insert(t, sorted[1..])
  }

  predicate AtMost<K>(ts: seq<Tally<K>>, c: int)
  {
    forall i :: 0 <= i < |ts| ==> ts[i].count <= c
  }

  lemma {:induction false} InsertAtMost<K>(t: Tally<K>, sorted: seq<Tally<K>>, c: int)
    requires AtMost(sorted, c) && t.count <= c
    ensures AtMost(Insert(t, sorted), c)
  {
    if sorted != [] && sorted[0].count >= t.count {
      InsertAtMost(t, sorted[1..], c);
    }
  }

  lemma {:induction false} InsertSorted<K>(t: Tally<K>, sorted: seq<Tally<K>>)
    requires Descending(sorted)
    ensures Descending(Insert(t, sorted))
  {
    if sorted != [] && sorted[0].count >= t.count {
      InsertSorted(t, sorted[1..]);
      InsertAtMost(t, sorted[1..], sorted[0].count);
    }
  }

  predicate Descending<K>(ts: seq<Tally<K>>)
  {
    forall i, j :: 0 <= i < j < |ts| ==> ts[i].count >= ts[j].count
  }

  /** The stable sort by descending count. */
  function SortByCount<K>(ts: seq<Tally<K>>): (r: seq<Tally<K>>)
    ensures Descending(r)
    ensures multiset(r) == multiset(ts)
    ensures SumCounts(r) == SumCounts(ts)
  {
    if ts == [] then []
    else
      var init := ts[..|ts| - 1];
      assert ts == init + [ts[|ts| - 1]];
      SumCountsSnoc(init, ts[|ts| - 1]);
      InsertSorted(ts[|ts| - 1], SortByCount(init));
      Insert(ts[|ts| - 1], SortByCount(init))
  }

  /** `emotionDistribution`. */
  function EmotionDistribution(es: seq<EmotionEntry>): seq<Tally<Emotion>>
  {
    var xs := EmotionsOf(es);
    SortByCount(Tallies(xs, Dedupe(xs)))
  }

  /** Most frequent first; one row per emotion present, with its number of
      entries; the counts add up to the number of entries. */
  lemma EmotionDistributionSpec(es: seq<EmotionEntry>)
    ensures Descending(EmotionDistribution(es))
    ensures SumCounts(EmotionDistribution(es)) == |es|
    ensures forall t :: t in EmotionDistribution(es) <==> t.key in EmotionsOf(es) && t.count == Count(EmotionsOf(es), t.key)
    ensures |EmotionDistribution(es)| == |Dedupe(EmotionsOf(es))|
  {
    var xs := EmotionsOf(es);
    var ts := Tallies(xs, Dedupe(xs));
    TalliesPartition(xs);
    DedupeSpec(xs);
    var r := EmotionDistribution(es);
    assert multiset(r) == multiset(ts);
    assert |r| == |multiset(r)| == |multiset(ts)| == |ts|;
    forall t ensures t in r <==> t.key in xs && t.count == Count(xs, t.key) {
      assert t in r <==> t in multiset(r);
      assert t in ts <==> t in multiset(ts);
      if t.key in xs && t.count == Count(xs, t.key) {
        var i :| 0 <= i < |Dedupe(xs)| && Dedupe(xs)[i] == t.key;
        assert ts[i] == t;
      }
    }
  }
}
