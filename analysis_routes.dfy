/**
 * The pure computations of the analysis routes, over an entry list the
 * database has already returned (newest first for the dashboard and the
 * listing, oldest first for the trends).  Date rendering is a parameter.
 */
module AnalysisRoutes {
  import opened Common

  datatype Entry = Entry(id: int, date: string, text: string, emotions: Table,
                         sentimentScore: int, burnoutScore: int)

  // ---------------------------------------------------------------------------
  // The entry listing

  datatype Listing = Listing(id: int, date: string, emotions: Table,
                             sentimentScore: int, burnoutScore: int, summary: string)

  /** `text.substring(0, 100) + '...'`. */
  function ListingSummary(text: string): string
  {
    text[..Min(100, |text|)] + "..."
  }

  /** The summary is the first hundred characters followed by "...", which is
      appended even when nothing was cut. */
  lemma ListingSummaryShape(text: string)
    ensures var s := ListingSummary(text);
            |s| == Min(100, |text|) + 3 &&
            s[|s| - 3..] == "..." &&
            s[..|s| - 3] == text[..|s| - 3] &&
            (|text| <= 100 ==> s == text + "...")
  {
    var s := ListingSummary(text);
    assert s[..|s| - 3] == text[..Min(100, |text|)];
  }

  function ListEntries(entries: seq<Entry>): (r: seq<Listing>)
    ensures |r| == |entries|
    ensures forall i :: 0 <= i < |r| ==>
              r[i].id == entries[i].id && r[i].date == entries[i].date &&
              r[i].emotions == entries[i].emotions &&
              r[i].sentimentScore == entries[i].sentimentScore &&
              r[i].burnoutScore == entries[i].burnoutScore &&
              r[i].summary == ListingSummary(entries[i].text)
  {
    seq(|entries|, i requires 0 <= i < |entries| =>
      var e := entries[i];
      Listing(e.id, e.date, e.emotions, e.sentimentScore, e.burnoutScore, ListingSummary(e.text)))
  }

  // ---------------------------------------------------------------------------
  // Averages

  function Sum(xs: seq<int>): int
  {
    if xs == [] then 0 else Sum(xs[..|xs| - 1]) + xs[|xs| - 1]
  }

  function BurnoutScores(entries: seq<Entry>): seq<int>
  {
    seq(|entries|, i requires 0 <= i < |entries| => entries[i].burnoutScore)
  }

  function SentimentScores(entries: seq<Entry>): seq<int>
  {
    seq(|entries|, i requires 0 <= i < |entries| => entries[i].sentimentScore)
  }

  /** `Math.round(xs.reduce((sum, x) => sum + x, 0) / xs.length)`. */
  function Average(xs: seq<int>): int
    requires xs != []
  {
    Round(Sum(xs), |xs|)
  }

  lemma {:induction false} SumBounds(xs: seq<int>, lo: int, hi: int)
    requires forall i :: 0 <= i < |xs| ==> lo <= xs[i] <= hi
    ensures |xs| * lo <= Sum(xs) <= |xs| * hi
  {
    if xs != [] {
      SumBounds(xs[..|xs| - 1], lo, hi);
    }
  }

  /** An average lies within any bounds that hold for every score: burnout
      scores within 0..100 average within 0..100. */
  lemma AverageBounds(xs: seq<int>, lo: int, hi: int)
    requires xs != []
    requires forall i :: 0 <= i < |xs| ==> lo <= xs[i] <= hi
    ensures lo <= Average(xs) <= hi
  {
    SumBounds(xs, lo, hi);
    RoundWithin(Sum(xs), |xs|, lo, hi);
  }

  /** Equal scores average to that score. */
  lemma AverageOfConstant(xs: seq<int>, c: int)
    requires xs != []
    requires forall i :: 0 <= i < |xs| ==> xs[i] == c
    ensures Average(xs) == c
  {
    AverageBounds(xs, c, c);
  }

  // ---------------------------------------------------------------------------
  // Emotion distribution

  /** The total of the values `t` holds under key `k`. */
  function TableSum(t: Table, k: string): int
  {
    if t == [] then 0
    else TableSum(t[..|t| - 1], k) + (if t[|t| - 1].0 == k then t[|t| - 1].1 else 0)
  }

  /** For a table with distinct keys, the total under a key is its value. */
  lemma {:induction false} TableSumOfDistinct(t: Table, k: string)
    requires DistinctKeys(t)
    ensures TableSum(t, k) == Get(t, k)
  {
    if t != [] {
      var n := |t| - 1;
      var pre := t[..n];
      assert DistinctKeys(pre);
      TableSumOfDistinct(pre, k);
      if t[n].0 == k {
        GetAt(t, n);
        assert k !in Keys(pre) by {
          forall i | 0 <= i < |pre| ensures Keys(pre)[i] != k {
            assert pre[i] == t[i];
          }
        }
        GetMissing(pre, k);
      } else {
        GetSnocOther(pre, t[n], k);
        assert t == pre + [t[n]];
      }
    }
  }

  lemma {:induction false} GetSnocOther(m: Table, x: (string, int), k: string)
    requires x.0 != k
    ensures Get(m + [x], k) == Get(m, k)
  {
    if m != [] {
      assert (m + [x])[1..] == m[1..] + [x];
      GetSnocOther(m[1..], x, k);
    }
  }

  /** One entry's inner `forEach`: every pair of `t` added into `m`. */
  function AddAll(m: Table, t: Table): Table
  {
    if t == [] then m else Add(AddAll(m, t[..|t| - 1]), t[|t| - 1].0, t[|t| - 1].1)
  }

  lemma {:induction false} AddAllSpec(m: Table, t: Table)
    ensures forall k :: Get(AddAll(m, t), k) == Get(m, k) + TableSum(t, k)
    ensures forall k :: k in Keys(AddAll(m, t)) <==> k in Keys(m) || k in Keys(t)
    ensures DistinctKeys(m) ==> DistinctKeys(AddAll(m, t))
  {
    if t != [] {
      var n := |t| - 1;
      AddAllSpec(m, t[..n]);
      var prev := AddAll(m, t[..n]);
      if DistinctKeys(m) {
        AddKeepsDistinct(prev, t[n].0, t[n].1);
      }
      KeysSnoc(t[..n], t[n]);
      assert t == t[..n] + [t[n]];
    }
  }

  /** The outer `forEach`: the entries' tables added in order. */
  function Accumulated(entries: seq<Entry>): Table
  {
    if entries == [] then []
    else AddAll(Accumulated(entries[..|entries| - 1]), entries[|entries| - 1].emotions)
  }

  /** The total of all entries' scores under key `k`. */
  function SumKey(entries: seq<Entry>, k: string): int
  {
    if entries == [] then 0
    else SumKey(entries[..|entries| - 1], k) + TableSum(entries[|entries| - 1].emotions, k)
  }

  /** Some entry's emotion table has key `k`. */
  predicate Seen(entries: seq<Entry>, k: string)
  {
    exists i :: 0 <= i < |entries| && k in Keys(entries[i].emotions)
  }

  lemma {:induction false} AccumulatedSpec(entries: seq<Entry>)
    ensures DistinctKeys(Accumulated(entries))
    ensures forall k :: Get(Accumulated(entries), k) == SumKey(entries, k)
    ensures forall k :: k in Keys(Accumulated(entries)) <==> Seen(entries, k)
  {
    if entries != [] {
      var n := |entries| - 1;
      var pre := entries[..n];
      AccumulatedSpec(pre);
      AddAllSpec(Accumulated(pre), entries[n].emotions);
      forall k ensures Seen(entries, k) <==> Seen(pre, k) || k in Keys(entries[n].emotions) {
        if Seen(entries, k) {
          var i :| 0 <= i < |entries| && k in Keys(entries[i].emotions);
          if i < n {
            assert pre[i] == entries[i];
          }
        }
        if Seen(pre, k) {
          var i :| 0 <= i < |pre| && k in Keys(pre[i].emotions);
          assert pre[i] == entries[i];
        }
      }
    }
  }

  /** The normalising pass: every value replaced by `Math.round(value / n)`,
      keys and their order kept. */
  function Averaged(m: Table, n: int): (r: Table)
    requires n > 0
    ensures Keys(r) == Keys(m)
  {
    seq(|m|, i requires 0 <= i < |m| => (m[i].0, Round(m[i].1, n)))
  }

  lemma AveragedGet(m: Table, n: int, k: string)
    requires n > 0 && DistinctKeys(m) && k in Keys(m)
    ensures Get(Averaged(m, n), k) == Round(Get(m, k), n)
  {
    var r := Averaged(m, n);
    var i :| 0 <= i < |m| && Keys(m)[i] == k;
    GetAt(m, i);
    assert DistinctKeys(r) by {
      forall a, b | 0 <= a < b < |r| ensures r[a].0 != r[b].0 {
        assert r[a].0 == m[a].0 && r[b].0 == m[b].0;
      }
    }
    GetAt(r, i);
  }

  /** The distribution loop: totals accumulated entry by entry, then each
      divided by the number of entries and rounded, in place. */
  method EmotionDistribution(entries: seq<Entry>) returns (emotionDistribution: Table)
    requires |entries| > 0
    ensures emotionDistribution == Averaged(Accumulated(entries), |entries|)
  {
    emotionDistribution := TotalEmotions(entries);
    ghost var totals := emotionDistribution;
    for i := 0 to |emotionDistribution|
      invariant |emotionDistribution| == |totals|
      invariant forall j :: 0 <= j < i ==> emotionDistribution[j] == (totals[j].0, Round(totals[j].1, |entries|))
      invariant forall j :: i <= j < |totals| ==> emotionDistribution[j] == totals[j]
    {
      emotionDistribution := emotionDistribution[i := (emotionDistribution[i].0, Round(emotionDistribution[i].1, |entries|))];
    }
  }

  /** The nested `forEach` of the distribution: `acc[emotion] = (acc[emotion]
      || 0) + score` over every pair of every entry. */
  method TotalEmotions(entries: seq<Entry>) returns (totals: Table)
    ensures totals == Accumulated(entries)
  {
    totals := [];
    for i := 0 to |entries|
      invariant totals == Accumulated(entries[..i])
    {
      var emotions := entries[i].emotions;
      for j := 0 to |emotions|
        invariant totals == AddAll(Accumulated(entries[..i]), emotions[..j])
      {
        totals := Add(totals, emotions[j].0, emotions[j].1);
        assert emotions[..j + 1][..j] == emotions[..j];
      }
      assert emotions[..|emotions|] == emotions;
      assert entries[..i + 1][..i] == entries[..i];
    }
    assert entries[..|entries|] == entries;
  }

  /** The distribution has one key for each emotion seen in any entry, and its
      value is the rounded total over all entries divided by the number of
      entries, whether or not every entry has that key. */
  lemma DistributionSpec(entries: seq<Entry>)
    requires |entries| > 0
    ensures var d := Averaged(Accumulated(entries), |entries|);
            DistinctKeys(d) &&
            (forall k :: k in Keys(d) <==> Seen(entries, k)) &&
            (forall k :: k in Keys(d) ==> Get(d, k) == Round(SumKey(entries, k), |entries|))
  {
    var acc := Accumulated(entries);
    var d := Averaged(acc, |entries|);
    AccumulatedSpec(entries);
    assert DistinctKeys(d) by {
      forall a, b | 0 <= a < b < |d| ensures d[a].0 != d[b].0 {
        assert d[a].0 == acc[a].0 && d[b].0 == acc[b].0;
      }
    }
    forall k | k in Keys(d) ensures Get(d, k) == Round(SumKey(entries, k), |entries|) {
      AveragedGet(acc, |entries|, k);
    }
  }

  /** A key missing from some entries is still divided by the full count: a
      stress score of 40 in one of two entries averages to 20. */
  lemma DivisorIsEntryCount(a: Entry, b: Entry)
    requires a.emotions == [("stress", 40)] && b.emotions == []
    ensures Get(Averaged(Accumulated([a, b]), 2), "stress") == 20
  {
    var entries := [a, b];
    DistributionSpec(entries);
    assert entries[..1] == [a] && [a][..0] == [];
    assert a.emotions[..0] == [];
    assert TableSum(a.emotions, "stress") == 40;
    assert SumKey([a], "stress") == 40;
    assert SumKey(entries, "stress") == 40;
    assert "stress" in Keys(a.emotions);
    assert Seen(entries, "stress");
  }

  // ---------------------------------------------------------------------------
  // Recent trend, weekly data and trends

  datatype TrendPoint = TrendPoint(date: string, burnoutScore: int, sentiment: int)

  datatype WeeklyPoint = WeeklyPoint(date: string, emotions: Table)

  datatype TrendRow = TrendRow(date: string, burnoutScore: int, sentimentScore: int)

  /** `entries.slice(0, 7).map(...).reverse()` for the burnout/sentiment trend. */
  function RecentTrend(entries: seq<Entry>, localDate: string -> string): seq<TrendPoint>
  {
    var recent := entries[..Min(7, |entries|)];
    Reverse(seq(|recent|, i requires 0 <= i < |recent| =>
      TrendPoint(localDate(recent[i].date), recent[i].burnoutScore, recent[i].sentimentScore)))
  }

  /** `entries.slice(0, 7).map(...).reverse()` for the emotion tables. */
  function WeeklyData(entries: seq<Entry>, localDate: string -> string): seq<WeeklyPoint>
  {
    var recent := entries[..Min(7, |entries|)];
    Reverse(seq(|recent|, i requires 0 <= i < |recent| =>
      WeeklyPoint(localDate(recent[i].date), recent[i].emotions)))
  }

  /** Both windows hold the first min(7, n) entries of the newest-first list,
      reversed so that the oldest of them comes first. */
  lemma RecentWindow(entries: seq<Entry>, localDate: string -> string)
    ensures var k := Min(7, |entries|);
            var t := RecentTrend(entries, localDate);
            var w := WeeklyData(entries, localDate);
            |t| == k && |w| == k &&
            (forall i :: 0 <= i < k ==>
               var e := entries[k - 1 - i];
               t[i] == TrendPoint(localDate(e.date), e.burnoutScore, e.sentimentScore) &&
               w[i] == WeeklyPoint(localDate(e.date), e.emotions))
  {
    var k := Min(7, |entries|);
    var recent := entries[..k];
    var ts := seq(|recent|, i requires 0 <= i < |recent| =>
      TrendPoint(localDate(recent[i].date), recent[i].burnoutScore, recent[i].sentimentScore));
    var ws := seq(|recent|, i requires 0 <= i < |recent| =>
      WeeklyPoint(localDate(recent[i].date), recent[i].emotions));
    forall i | 0 <= i < k
      ensures RecentTrend(entries, localDate)[i] == ts[k - 1 - i]
      ensures WeeklyData(entries, localDate)[i] == ws[k - 1 - i]
    {
      ReverseAt(ts, i);
      ReverseAt(ws, i);
    }
  }

  /** The trends route: one row per entry, in the order given. */
  function Trends(entries: seq<Entry>, isoDate: string -> string): (r: seq<TrendRow>)
    ensures |r| == |entries|
    ensures forall i :: 0 <= i < |r| ==>
              r[i] == TrendRow(isoDate(entries[i].date), entries[i].burnoutScore, entries[i].sentimentScore)
  {
    seq(|entries|, i requires 0 <= i < |entries| =>
      TrendRow(isoDate(entries[i].date), entries[i].burnoutScore, entries[i].sentimentScore))
  }

  // ---------------------------------------------------------------------------
  // The dashboard

  datatype DashboardData = DashboardData(
    averageBurnoutScore: int,
    averageSentiment: int,
    totalEntries: int,
    emotionDistribution: Table,
    recentTrend: seq<TrendPoint>,
    weeklyData: seq<WeeklyPoint>)

  /** The dashboard handler after the query: all zeros and empty collections
      for no entries; otherwise averages over every entry, the distribution
      and the two seven-entry windows. */
  method Dashboard(entries: seq<Entry>, localDate: string -> string) returns (d: DashboardData)
    ensures d.totalEntries == |entries|
    ensures entries == [] ==> d == DashboardData(0, 0, 0, [], [], [])
    ensures entries != [] ==>
              d.averageBurnoutScore == Average(BurnoutScores(entries)) &&
              d.averageSentiment == Average(SentimentScores(entries)) &&
              d.emotionDistribution == Averaged(Accumulated(entries), |entries|) &&
              d.recentTrend == RecentTrend(entries, localDate) &&
              d.weeklyData == WeeklyData(entries, localDate)
  {
    if |entries| == 0 {
      return DashboardData(0, 0, 0, [], [], []);
    }
    var averageBurnoutScore := Average(BurnoutScores(entries));
    var averageSentiment := Average(SentimentScores(entries));
    var emotionDistribution := EmotionDistribution(entries);
    var recentTrend := RecentTrend(entries, localDate);
    var weeklyData := WeeklyData(entries, localDate);
    d := DashboardData(averageBurnoutScore, averageSentiment, |entries|,
                       emotionDistribution, recentTrend, weeklyData);
  }
}
