/** The burnout model of backend/utils/burnoutCalculator.js: a tiered, weighted
    step function of sentiment, stress plus anxiety, fatigue and the trend of
    the last three sentiments; the risk band of a score; and the lists of
    concerns and strengths. Every weighted contribution of the source is an
    exact integer (40 * 0.9 = 36, 30 * 0.6 = 18, 10 * 0.4 = 4, ...), so scores
    are integers here. */
module BurnoutCalculator {
  import opened Common

  // ---------------------------------------------------------------------------
  // Score

  /** Factor 1, weight 40: 90%, 50% or 20% of it by how negative the sentiment is. */
  function SentimentFactor(sentiment: int): int
  {
    if sentiment < -30 then 36 else if sentiment < -10 then 20 else if sentiment < 0 then 8 else 0
  }

  /** Factor 2, weight 30, on stress + anxiety: 90%, 60% or 30% of it. */
  function StressFactor(level: int): int
  {
    if level > 40 then 27 else if level > 25 then 18 else if level > 10 then 9 else 0
  }

  /** Factor 3, weight 20, on fatigue: 90%, 60% or 30% of it. */
  function FatigueFactor(level: int): int
  {
    if level > 25 then 18 else if level > 15 then 12 else if level > 5 then 6 else 0
  }

  datatype Trend = Declining | Stagnant | Improving | Insufficient

  /** calculateTrendPattern over the history's sentiment scores (oldest first).
      The average of two integers is a half-integer, so the comparisons are
      made on doubled values. */
  function TrendPattern(history: seq<int>): (t: Trend)
    ensures |history| < 3 <==> t == Insufficient
    ensures |history| >= 3 ==>
              var avg := (history[|history| - 3] + history[|history| - 2]) as real / 2.0;
              var latest := history[|history| - 1] as real;
              var declining := latest < avg - 15.0;
              var stagnant := -10.0 < latest - avg < 10.0;
              (t == Declining <==> declining) &&
              (t == Stagnant <==> !declining && stagnant) &&
              (t == Improving <==> !declining && !stagnant)
  {
    if |history| < 3 then Insufficient
    else
      var pair := history[|history| - 3] + history[|history| - 2];
      var latest := history[|history| - 1];
      if 2 * latest < pair - 30 then Declining
      else if -20 < 2 * latest - pair < 20 then Stagnant
      else Improving
  }

  /** Only the last three entries of the history matter. */
  lemma TrendUsesLastThree(older: seq<int>, recent: seq<int>)
    requires |recent| >= 3
    ensures TrendPattern(older + recent) == TrendPattern(recent)
  {
    var h := older + recent;
    assert h[|h| - 3] == recent[|recent| - 3];
    assert h[|h| - 2] == recent[|recent| - 2];
    assert h[|h| - 1] == recent[|recent| - 1];
  }

  /** Factor 4, weight 10, only for a non-empty history: 80% when declining,
      40% when stagnant. */
  function HistoryFactor(history: seq<int>): int
  {
    if |history| > 0 then
      match TrendPattern(history)
      case Declining => 8
      case Stagnant => 4
      case _ => 0
    else 0
  }

  /** Stress level as the source reads it: absent keys count as 0. */
  function StressLevel(emotionData: Table): int
  {
    Get(emotionData, "stress") + Get(emotionData, "anxiety")
  }

  /** The sum of the four factors for the given levels. */
  function FactorSum(sentiment: int, stressLevel: int, fatigueLevel: int, history: seq<int>): int
  {
    SentimentFactor(sentiment) + StressFactor(stressLevel) + FatigueFactor(fatigueLevel) + HistoryFactor(history)
  }

  /** The sum lies in 0..89, so the cap at 100 never takes effect. */
  lemma FactorSumRange(sentiment: int, stressLevel: int, fatigueLevel: int, history: seq<int>)
    ensures 0 <= FactorSum(sentiment, stressLevel, fatigueLevel, history) <= 89
    ensures FactorSum(-31, 41, 26, [0, 0, -16]) == 89
  {
  }

  /** Lowering the sentiment or raising either level never lowers the score. */
  lemma FactorSumMonotone(s1: int, s2: int, st1: int, st2: int, f1: int, f2: int, history: seq<int>)
    requires s2 <= s1 && st1 <= st2 && f1 <= f2
    ensures FactorSum(s1, st1, f1, history) <= FactorSum(s2, st2, f2, history)
  {
  }

  /** calculateBurnoutScore: the factors accumulated into one running score,
      then capped at 100. */
  method CalculateBurnoutScore(emotionData: Table, sentimentScore: int, journalHistory: seq<int>)
    returns (burnoutScore: int)
    ensures burnoutScore == FactorSum(sentimentScore, StressLevel(emotionData), Get(emotionData, "fatigue"), journalHistory)
    ensures 0 <= burnoutScore <= 89
  {
    burnoutScore := 0;

    if sentimentScore < -30 {
      burnoutScore := burnoutScore + 36;
    } else if sentimentScore < -10 {
      burnoutScore := burnoutScore + 20;
    } else if sentimentScore < 0 {
      burnoutScore := burnoutScore + 8;
    }

    var stressLevel := Get(emotionData, "stress") + Get(emotionData, "anxiety");
    if stressLevel > 40 {
      burnoutScore := burnoutScore + 27;
    } else if stressLevel > 25 {
      burnoutScore := burnoutScore + 18;
    } else if stressLevel > 10 {
      burnoutScore := burnoutScore + 9;
    }

    var fatigueLevel := Get(emotionData, "fatigue");
    if fatigueLevel > 25 {
      burnoutScore := burnoutScore + 18;
    } else if fatigueLevel > 15 {
      burnoutScore := burnoutScore + 12;
    } else if fatigueLevel > 5 {
      burnoutScore := burnoutScore + 6;
    }

    if |journalHistory| > 0 {
      var recentTrend := TrendPattern(journalHistory);
      if recentTrend == Declining {
        burnoutScore := burnoutScore + 8;
      } else if recentTrend == Stagnant {
        burnoutScore := burnoutScore + 4;
      }
    }

    FactorSumRange(sentimentScore, stressLevel, fatigueLevel, journalHistory);
    burnoutScore := Min(burnoutScore, 100);
  }

  // ---------------------------------------------------------------------------
  // Risk level

  datatype RiskLevel = RiskLevel(level: string, color: string, recommendation: string)

  const LowRisk := RiskLevel("Low", "#4caf50", "Keep maintaining healthy habits")
  const ModerateRisk := RiskLevel("Moderate", "#ff9800", "Consider taking breaks and practicing stress management")
  const HighRisk := RiskLevel("High", "#ff5722", "Seek support and prioritize self-care immediately")
  const CriticalRisk := RiskLevel("Critical", "#d32f2f", "Please reach out to mental health professionals")

  /** The four levels from least to most severe. */
  const RiskLevels: seq<RiskLevel> := [LowRisk, ModerateRisk, HighRisk, CriticalRisk]

  /** getRiskLevel. */
  function GetRiskLevel(burnoutScore: int): RiskLevel
  {
    if burnoutScore < 25 then LowRisk
    else if burnoutScore < 50 then ModerateRisk
    else if burnoutScore < 75 then HighRisk
    else CriticalRisk
  }

  /** How many of the thresholds 25, 50 and 75 the score has reached. */
  function ThresholdsReached(score: int): (n: nat)
    ensures n <= 3
  {
    (if score >= 25 then 1 else 0) + (if score >= 50 then 1 else 0) + (if score >= 75 then 1 else 0)
  }

  /** The level is the one indexed by the number of thresholds reached, so it
      never gets less severe as the score grows. */
  lemma RiskLevelByThresholds(a: int, b: int)
    ensures GetRiskLevel(a) == RiskLevels[ThresholdsReached(a)]
    ensures a <= b ==> ThresholdsReached(a) <= ThresholdsReached(b)
  {
  }

  /** The band edges. */
  lemma RiskLevelEdges()
    ensures GetRiskLevel(24) == LowRisk && GetRiskLevel(25) == ModerateRisk
    ensures GetRiskLevel(49) == ModerateRisk && GetRiskLevel(50) == HighRisk
    ensures GetRiskLevel(74) == HighRisk && GetRiskLevel(75) == CriticalRisk
  {
  }

  // ---------------------------------------------------------------------------
  // Concerns and strengths

  datatype RiskAnalysis = RiskAnalysis(
    burnoutScore: int,
    riskLevel: RiskLevel,
    primaryConcerns: seq<string>,
    strengths: seq<string>)

  const ConcernLabels: seq<string> :=
    ["High stress levels", "Elevated anxiety", "Significant fatigue", "Persistent negative thoughts", "Mood disturbance"]

  const DefaultConcern := "Monitor overall wellbeing"

  const StrengthLabels: seq<string> :=
    ["Moments of joy and positivity", "Overall positive outlook", "Good emotional regulation"]

  /** The five concern conditions, in the order they are checked. */
  function ConcernFlags(emotionData: Table, sentimentScore: int): seq<bool>
  {
    [Get(emotionData, "stress") > 25, Get(emotionData, "anxiety") > 25, Get(emotionData, "fatigue") > 20,
     sentimentScore < -20, Get(emotionData, "sadness") > 20]
  }

  /** The three strength conditions, in the order they are checked. */
  function StrengthFlags(emotionData: Table, sentimentScore: int): seq<bool>
  {
    [Get(emotionData, "happiness") > 15, sentimentScore > 0, Get(emotionData, "anger") < 10]
  }

  /** The labels whose condition holds, in label order. */
  function Triggered(labels: seq<string>, flags: seq<bool>): seq<string>
    requires |labels| == |flags|
  {
    if labels == [] then []
    else (if flags[0] then [labels[0]] else []) + Triggered(labels[1..], flags[1..])
  }

  function Pick(flag: bool, name: string): seq<string>
  {
    if flag then [name] else []
  }

  lemma {:induction false} TriggeredSnoc(labels: seq<string>, flags: seq<bool>, l: string, f: bool)
    requires |labels| == |flags|
    ensures Triggered(labels + [l], flags + [f]) == Triggered(labels, flags) + Pick(f, l)
  {
    if labels == [] {
      assert Triggered([l], [f]) == Pick(f, l) + Triggered([], []);
    } else {
      assert (labels + [l])[1..] == labels[1..] + [l];
      assert (flags + [f])[1..] == flags[1..] + [f];
      TriggeredSnoc(labels[1..], flags[1..], l, f);
    }
  }

  /** Triggered grows one label at a time along prefixes. */
  lemma TriggeredPrefix(labels: seq<string>, flags: seq<bool>, k: nat)
    requires |labels| == |flags| && k < |labels|
    ensures Triggered(labels[..k + 1], flags[..k + 1]) == Triggered(labels[..k], flags[..k]) + Pick(flags[k], labels[k])
  {
    assert labels[..k + 1] == labels[..k] + [labels[k]];
    assert flags[..k + 1] == flags[..k] + [flags[k]];
    TriggeredSnoc(labels[..k], flags[..k], labels[k], flags[k]);
  }

  /** A label is listed exactly when its condition holds, and nothing is listed
      when no condition holds. */
  lemma {:induction false} TriggeredMembers(labels: seq<string>, flags: seq<bool>)
    requires |labels| == |flags| && Distinct(labels)
    ensures forall i :: 0 <= i < |labels| ==> (labels[i] in Triggered(labels, flags) <==> flags[i])
    ensures forall x :: x in Triggered(labels, flags) ==> x in labels
    ensures Triggered(labels, flags) == [] <==> forall i :: 0 <= i < |flags| ==> !flags[i]
  {
    if labels != [] {
      TriggeredMembers(labels[1..], flags[1..]);
      forall i | 0 < i < |labels|
        ensures labels[i] in Triggered(labels, flags) <==> flags[i]
      {
        assert labels[1..][i - 1] == labels[i];
        assert labels[i] != labels[0];
      }
      assert labels[0] !in labels[1..];
    }
  }

  /** generateRiskAnalysis: the concern and strength lists grow by pushes in a
      fixed order; the default concern is pushed last when none was. The level
      is taken from the unrounded score, which is an integer here. */
  method GenerateRiskAnalysis(emotionData: Table, sentimentScore: int, burnoutScore: int)
    returns (analysis: RiskAnalysis)
    ensures analysis.burnoutScore == burnoutScore
    ensures analysis.riskLevel == GetRiskLevel(burnoutScore)
    ensures var raised := Triggered(ConcernLabels, ConcernFlags(emotionData, sentimentScore));
            analysis.primaryConcerns == if raised == [] then [DefaultConcern] else raised
    ensures analysis.strengths == Triggered(StrengthLabels, StrengthFlags(emotionData, sentimentScore))
  {
    var primaryConcerns := PushConcerns(emotionData, sentimentScore);
    var strengths := PushStrengths(emotionData, sentimentScore);
    if |primaryConcerns| == 0 {
      primaryConcerns := primaryConcerns + [DefaultConcern];
    }
    analysis := RiskAnalysis(Round(burnoutScore, 1), GetRiskLevel(burnoutScore), primaryConcerns, strengths);
    RoundWithin(burnoutScore, 1, burnoutScore, burnoutScore);
  }

  /** The five concern checks of generateRiskAnalysis, each pushing its label. */
  method PushConcerns(emotionData: Table, sentimentScore: int) returns (primaryConcerns: seq<string>)
    ensures primaryConcerns == Triggered(ConcernLabels, ConcernFlags(emotionData, sentimentScore))
  {
    ghost var f := ConcernFlags(emotionData, sentimentScore);
    primaryConcerns := [];
    if Get(emotionData, "stress") > 25 { primaryConcerns := primaryConcerns + ["High stress levels"]; }
    assert primaryConcerns == Pick(f[0], ConcernLabels[0]);
    if Get(emotionData, "anxiety") > 25 { primaryConcerns := primaryConcerns + ["Elevated anxiety"]; }
    assert primaryConcerns == Pick(f[0], ConcernLabels[0]) + Pick(f[1], ConcernLabels[1]);
    if Get(emotionData, "fatigue") > 20 { primaryConcerns := primaryConcerns + ["Significant fatigue"]; }
    if sentimentScore < -20 { primaryConcerns := primaryConcerns + ["Persistent negative thoughts"]; }
    if Get(emotionData, "sadness") > 20 { primaryConcerns := primaryConcerns + ["Mood disturbance"]; }
    assert primaryConcerns == Pick(f[0], ConcernLabels[0]) + Pick(f[1], ConcernLabels[1]) + Pick(f[2], ConcernLabels[2])
      + Pick(f[3], ConcernLabels[3]) + Pick(f[4], ConcernLabels[4]);
    TriggeredFive(ConcernLabels, f);
  }

  /** The three strength checks of generateRiskAnalysis, each pushing its label. */
  method PushStrengths(emotionData: Table, sentimentScore: int) returns (strengths: seq<string>)
    ensures strengths == Triggered(StrengthLabels, StrengthFlags(emotionData, sentimentScore))
  {
    ghost var f := StrengthFlags(emotionData, sentimentScore);
    strengths := [];
    if Get(emotionData, "happiness") > 15 { strengths := strengths + ["Moments of joy and positivity"]; }
    assert strengths == Pick(f[0], StrengthLabels[0]);
    if sentimentScore > 0 { strengths := strengths + ["Overall positive outlook"]; }
    if Get(emotionData, "anger") < 10 { strengths := strengths + ["Good emotional regulation"]; }
    assert strengths == Pick(f[0], StrengthLabels[0]) + Pick(f[1], StrengthLabels[1]) + Pick(f[2], StrengthLabels[2]);
    TriggeredThree(StrengthLabels, f);
  }

  lemma TriggeredFive(labels: seq<string>, flags: seq<bool>)
    requires |labels| == |flags| == 5
    ensures Triggered(labels, flags) == Pick(flags[0], labels[0]) + Pick(flags[1], labels[1]) + Pick(flags[2], labels[2])
      + Pick(flags[3], labels[3]) + Pick(flags[4], labels[4])
  {
    TriggeredPrefix(labels, flags, 0);
    TriggeredPrefix(labels, flags, 1);
    TriggeredPrefix(labels, flags, 2);
    TriggeredPrefix(labels, flags, 3);
    TriggeredPrefix(labels, flags, 4);
    assert labels[..0] == [] && flags[..0] == [];
    assert labels[..5] == labels && flags[..5] == flags;
  }

  lemma TriggeredThree(labels: seq<string>, flags: seq<bool>)
    requires |labels| == |flags| == 3
    ensures Triggered(labels, flags) == Pick(flags[0], labels[0]) + Pick(flags[1], labels[1]) + Pick(flags[2], labels[2])
  {
    TriggeredPrefix(labels, flags, 0);
    TriggeredPrefix(labels, flags, 1);
    TriggeredPrefix(labels, flags, 2);
    assert labels[..0] == [] && flags[..0] == [];
    assert labels[..3] == labels && flags[..3] == flags;
  }

  /** The concern list is never empty, and it is the lone default entry exactly
      when no concern condition holds; each concern is listed exactly when its
      condition holds. */
  lemma ConcernsNeverEmpty(emotionData: Table, sentimentScore: int)
    ensures var flags := ConcernFlags(emotionData, sentimentScore);
            var raised := Triggered(ConcernLabels, flags);
            var concerns := if raised == [] then [DefaultConcern] else raised;
            concerns != [] &&
            (concerns == [DefaultConcern] <==> forall i :: 0 <= i < 5 ==> !flags[i]) &&
            (forall i :: 0 <= i < 5 ==> (ConcernLabels[i] in concerns <==> flags[i]))
  {
    var flags := ConcernFlags(emotionData, sentimentScore);
    assert Distinct(ConcernLabels);
    TriggeredMembers(ConcernLabels, flags);
    assert DefaultConcern !in ConcernLabels;
  }

  /** Strengths may be empty, and "Good emotional regulation" is listed whenever
      no anger was detected. */
  lemma StrengthsFacts(emotionData: Table, sentimentScore: int)
    ensures "anger" !in Keys(emotionData) ==>
              "Good emotional regulation" in Triggered(StrengthLabels, StrengthFlags(emotionData, sentimentScore))
    ensures Triggered(StrengthLabels, StrengthFlags([("anger", 40)], -5)) == []
  {
    var f := StrengthFlags(emotionData, sentimentScore);
    TriggeredThree(StrengthLabels, f);
    if "anger" !in Keys(emotionData) {
      GetMissing(emotionData, "anger");
      assert Pick(f[2], StrengthLabels[2]) == ["Good emotional regulation"];
    }
    var g := StrengthFlags([("anger", 40)], -5);
    TriggeredThree(StrengthLabels, g);
    assert !g[0] && !g[1] && !g[2];
  }
}
