/**
 * The recommendation and summary builder: template strings chosen from the
 * emotion map and the burnout score, and a narrative assembled sentence by
 * sentence.  `Math.random` draws are parameters: the caller supplies the draw
 * for each step, and an index is the draw reduced modulo the list length.
 */
module AiRecommendations {
  import opened Common

  // ---------------------------------------------------------------------------
  // Templates

  const AnxietyTemplates: seq<string> := [
    "Try the 5-4-3-2-1 grounding technique: Name 5 things you see, 4 you can touch, 3 you hear, 2 you smell, 1 you taste",
    "Practice deep breathing exercises - try the 4-7-8 technique: breathe in for 4, hold for 7, exhale for 8",
    "Consider a 10-minute meditation session using apps like Headspace or Calm",
    "Take a short walk in nature to help ground yourself in the present moment"]

  const StressTemplates: seq<string> := [
    "Break your tasks into smaller, manageable chunks and celebrate small wins",
    "Set clear boundaries between work and personal time",
    "Practice progressive muscle relaxation for 15 minutes",
    "Engage in a hobby or activity you enjoy to decompress",
    "Try the Pomodoro technique: work for 25 minutes, then take a 5-minute break"]

  const SadnessTemplates: seq<string> := [
    "Reach out to someone you trust and share how you're feeling",
    "Engage in physical activity - even a 20-minute walk can boost mood",
    "Practice self-compassion: speak to yourself as you would a good friend",
    "Spend time with people who uplift you",
    "Consider talking to a therapist or counselor"]

  const FatigueTemplates: seq<string> := [
    "Prioritize sleep: aim for 7-9 hours each night",
    "Take screen breaks every hour to reduce eye strain",
    "Stay hydrated throughout the day",
    "Do light stretching or yoga to reinvigorate your energy",
    "Consider if you need a day to rest and recover"]

  const AngerTemplates: seq<string> := [
    "Take a time-out to cool down before responding",
    "Channel emotions through physical activity like exercise or sports",
    "Practice the TIPP technique: Temperature (cold water), Intense exercise, Paced breathing, Pair muscle relaxation",
    "Journal about what triggered your anger to understand the root cause",
    "Use \"I\" statements when expressing your feelings to others"]

  const LifestyleStrategies: seq<string> := [
    "Maintain a consistent sleep schedule (go to bed and wake up at the same time)",
    "Exercise for at least 30 minutes, 3-4 times per week",
    "Eat nutritious meals with balanced macronutrients",
    "Limit caffeine and alcohol intake",
    "Schedule regular breaks throughout your day",
    "Maintain social connections with friends and family",
    "Practice mindfulness or meditation daily",
    "Disconnect from work during personal time",
    "Keep a gratitude journal - write 3 things you are grateful for daily",
    "Seek professional help if feeling overwhelmed"]

  const DailyHigh: seq<string> := [
    "Spend 10 minutes on mindfulness or meditation",
    "Take a 15-minute nature break",
    "Check in with your emotions at morning and evening"]

  const DailyLow: seq<string> := [
    "Maintain your current coping strategies",
    "Continue with stress management techniques"]

  const TemplateEmotions: seq<string> := ["anxiety", "stress", "sadness", "fatigue", "anger"]

  const TemplateLists: seq<seq<string>> :=
    [AnxietyTemplates, StressTemplates, SadnessTemplates, FatigueTemplates, AngerTemplates]

  /** The position of `emotion` among the keys of `recommendationTemplates`,
      or -1. */
  function EmotionIndex(emotion: string): (i: int)
    ensures -1 <= i < |TemplateEmotions|
    ensures i >= 0 ==> TemplateEmotions[i] == emotion
    ensures i < 0 <==> emotion !in TemplateEmotions
  {
    if emotion == "anxiety" then 0
    else if emotion == "stress" then 1
    else if emotion == "sadness" then 2
    else if emotion == "fatigue" then 3
    else if emotion == "anger" then 4
    else -1
  }

  /** `recommendationTemplates[emotion]`: five emotions have a list; any other
      key, happiness included, has none. */
  function TemplatesFor(emotion: string): (r: Option<seq<string>>)
    ensures r.Some? ==> |r.value| > 0
    ensures r.Some? <==> emotion in TemplateEmotions
  {
    var i := EmotionIndex(emotion);
    if i < 0 then None else Some(TemplateLists[i])
  }

  predicate Disjoint(a: seq<string>, b: seq<string>)
  {
    forall x :: x in a ==> x !in b
  }

  // One lemma per pair of lists keeps each comparison of literals small.
  lemma AnxietyStressApart() ensures Disjoint(AnxietyTemplates, StressTemplates) {}
  lemma AnxietySadnessApart() ensures Disjoint(AnxietyTemplates, SadnessTemplates) {}
  lemma AnxietyFatigueApart() ensures Disjoint(AnxietyTemplates, FatigueTemplates) {}
  lemma AnxietyAngerApart() ensures Disjoint(AnxietyTemplates, AngerTemplates) {}
  lemma StressSadnessApart() ensures Disjoint(StressTemplates, SadnessTemplates) {}
  lemma StressFatigueApart() ensures Disjoint(StressTemplates, FatigueTemplates) {}
  lemma StressAngerApart() ensures Disjoint(StressTemplates, AngerTemplates) {}
  lemma SadnessFatigueApart() ensures Disjoint(SadnessTemplates, FatigueTemplates) {}
  lemma SadnessAngerApart() ensures Disjoint(SadnessTemplates, AngerTemplates) {}
  lemma FatigueAngerApart() ensures Disjoint(FatigueTemplates, AngerTemplates) {}

  lemma TemplateListsDisjoint()
    ensures forall i, j :: 0 <= i < j < |TemplateLists| ==> Disjoint(TemplateLists[i], TemplateLists[j])
  {
    AnxietyStressApart();
    AnxietySadnessApart();
    AnxietyFatigueApart();
    AnxietyAngerApart();
    StressSadnessApart();
    StressFatigueApart();
    StressAngerApart();
    SadnessFatigueApart();
    SadnessAngerApart();
    FatigueAngerApart();
  }

  /** No template string belongs to two emotions' lists. */
  lemma TemplatesDisjoint(a: string, b: string, x: string)
    requires TemplatesFor(a).Some? && TemplatesFor(b).Some?
    requires x in TemplatesFor(a).value && x in TemplatesFor(b).value
    ensures a == b
  {
    TemplateListsDisjoint();
    var i, j := EmotionIndex(a), EmotionIndex(b);
    assert TemplatesFor(a).value == TemplateLists[i] && TemplatesFor(b).value == TemplateLists[j];
  }

  // ---------------------------------------------------------------------------
  // Immediate actions

  /** The `.filter(([_, score]) => score > t)` step, in map order. */
  function Above(e: Table, t: int): (r: Table)
    ensures |r| <= |e|
    ensures forall i :: 0 <= i < |r| ==> r[i] in e && r[i].1 > t
  {
    if e == [] then []
    else (if e[0].1 > t then [e[0]] else []) + Above(e[1..], t)
  }

  /** The emotions scoring above 25, highest score first. */
  function HighEmotions(e: Table): seq<string>
  {
    Keys(SortDesc(Above(e, 25)))
  }

  /** The filter keeps exactly the keys whose value exceeds the threshold. */
  lemma {:induction false} AboveKeys(e: Table, t: int)
    requires DistinctKeys(e)
    ensures DistinctKeys(Above(e, t))
    ensures forall k :: k in Keys(Above(e, t)) <==> k in Keys(e) && Get(e, k) > t
  {
    if e != [] {
      var rest := e[1..];
      assert DistinctKeys(rest) by {
        forall i, j | 0 <= i < j < |rest| ensures rest[i].0 != rest[j].0 {
          assert rest[i] == e[i + 1] && rest[j] == e[j + 1];
        }
      }
      AboveKeys(rest, t);
      var tail := Above(rest, t);
      assert Keys(e) == [e[0].0] + Keys(rest) by { KeysCons(e[0], rest); assert e == [e[0]] + rest; }
      assert e[0].0 !in Keys(rest) by {
        forall i | 0 <= i < |rest| ensures Keys(rest)[i] != e[0].0 {
          assert rest[i] == e[i + 1];
        }
      }
      assert e[0].0 !in Keys(tail);
      assert Above(e, t) == (if e[0].1 > t then [e[0]] else []) + tail;
      forall k ensures Get(e, k) == if k == e[0].0 then e[0].1 else Get(rest, k) {
      }
      var ks := Keys(Above(e, t));
      if e[0].1 > t {
        KeysCons(e[0], tail);
        assert ks == [e[0].0] + Keys(tail);
      } else {
        assert ks == Keys(tail);
      }
      forall k ensures k in ks <==> k in Keys(e) && Get(e, k) > t {
        if k != e[0].0 {
          assert k in ks <==> k in Keys(tail);
        }
      }
      if e[0].1 > t {
        assert DistinctKeys([e[0]] + tail) by {
          var r := [e[0]] + tail;
          forall i, j | 0 <= i < j < |r| ensures r[i].0 != r[j].0 {
            if i == 0 {
              assert r[j].0 == Keys(tail)[j - 1];
            } else {
              assert r[i] == tail[i - 1] && r[j] == tail[j - 1];
            }
          }
        }
      }
    }
  }

  /** The high emotions are distinct, they are exactly the keys scoring above
      25, and they come in non-increasing order of score. */
  lemma HighEmotionsSpec(e: Table)
    requires DistinctKeys(e)
    ensures var high := HighEmotions(e);
            Distinct(high) &&
            (forall k :: k in high <==> k in Keys(e) && Get(e, k) > 25) &&
            (forall i, j :: 0 <= i < j < |high| ==> Get(e, high[i]) >= Get(e, high[j]))
  {
    var a := Above(e, 25);
    var s := SortDesc(a);
    var high := Keys(s);
    AboveKeys(e, 25);
    SortDescKeys(a);
    SortDescCorrect(a);
    forall i | 0 <= i < |s| ensures high[i] == s[i].0 && Get(e, s[i].0) == s[i].1 {
      assert s[i] in multiset(a);
      assert s[i] in a;
      assert s[i] in e;
      var m :| 0 <= m < |e| && e[m] == s[i];
      GetAt(e, m);
    }
  }

  /** The template lists of the first entries of `high` that have one. */
  function Served(high: seq<string>): (r: seq<string>)
    ensures forall k :: k in r ==> k in high && TemplatesFor(k).Some?
  {
    if high == [] then []
    else Served(high[..|high| - 1]) +
         (if TemplatesFor(high[|high| - 1]).Some? then [high[|high| - 1]] else [])
  }

  /** The one string drawn for `emotion`, if it has a list. */
  function DrawOne(emotion: string, draw: nat): seq<string>
  {
    match TemplatesFor(emotion)
    case Some(strategies) => [strategies[draw % |strategies|]]
    case None => []
  }

  /** The strings pushed by the `forEach` over the high emotions. */
  function Drawn(high: seq<string>, draws: seq<nat>): seq<string>
    requires |draws| == |high|
  {
    if high == [] then []
    else Drawn(high[..|high| - 1], draws[..|high| - 1]) + DrawOne(high[|high| - 1], draws[|high| - 1])
  }

  /** Position by position, the drawn strings come from the lists of the high
      emotions that have one, in the order those emotions are visited. */
  lemma {:induction false} DrawnServed(high: seq<string>, draws: seq<nat>)
    requires |draws| == |high|
    ensures |Drawn(high, draws)| == |Served(high)|
    ensures forall k :: 0 <= k < |Served(high)| ==> Drawn(high, draws)[k] in TemplatesFor(Served(high)[k]).value
  {
    if high != [] {
      var n := |high| - 1;
      DrawnServed(high[..n], draws[..n]);
    }
  }

  lemma {:induction false} ServedDistinct(high: seq<string>)
    requires Distinct(high)
    ensures Distinct(Served(high))
  {
    if high != [] {
      var n := |high| - 1;
      var pre := high[..n];
      assert Distinct(pre) by {
        forall i, j | 0 <= i < j < |pre| ensures pre[i] != pre[j] {
          assert pre[i] == high[i] && pre[j] == high[j];
        }
      }
      ServedDistinct(pre);
      forall k | k in Served(pre) ensures k != high[n] {
        assert k in pre;
      }
    }
  }

  /** One string per served emotion, and no two alike: the template lists are
      pairwise disjoint and each emotion is visited once. */
  lemma DrawnDistinct(high: seq<string>, draws: seq<nat>)
    requires |draws| == |high| && Distinct(high)
    ensures Distinct(Drawn(high, draws))
  {
    var d := Drawn(high, draws);
    var s := Served(high);
    DrawnServed(high, draws);
    ServedDistinct(high);
    forall i, j | 0 <= i < j < |d| ensures d[i] != d[j] {
      if d[i] == d[j] {
        TemplatesDisjoint(s[i], s[j], d[i]);
      }
    }
  }

  /** The immediate actions: one string for each emotion above 25 that has a
      list, highest score first, taken from that emotion's list; the
      de-duplication removes nothing. */
  lemma ImmediateSpec(e: Table, draws: seq<nat>)
    requires DistinctKeys(e) && |draws| == |HighEmotions(e)|
    ensures var high := HighEmotions(e);
            var served := Served(high);
            var d := Drawn(high, draws);
            Dedup(d) == d && |d| == |served| &&
            (forall k :: 0 <= k < |d| ==>
               d[k] in TemplatesFor(served[k]).value && Get(e, served[k]) > 25) &&
            (forall k :: k in served <==> k in Keys(e) && Get(e, k) > 25 && TemplatesFor(k).Some?) &&
            (forall i, j :: 0 <= i < j < |served| ==> Get(e, served[i]) >= Get(e, served[j]))
  {
    var high := HighEmotions(e);
    HighEmotionsSpec(e);
    ServedKeepsOrder(high, e);
    DrawnServed(high, draws);
    DrawnDistinct(high, draws);
    DedupOfDistinct(Drawn(high, draws));
    ServedMembers(high);
  }

  /** Skipping the emotions without a list keeps the descending score order. */
  lemma {:induction false} ServedKeepsOrder(high: seq<string>, e: Table)
    requires forall i, j :: 0 <= i < j < |high| ==> Get(e, high[i]) >= Get(e, high[j])
    ensures var s := Served(high);
            forall i, j :: 0 <= i < j < |s| ==> Get(e, s[i]) >= Get(e, s[j])
  {
    if high != [] {
      var n := |high| - 1;
      var pre := high[..n];
      ServedKeepsOrder(pre, e);
      var s := Served(high);
      forall i, j | 0 <= i < j < |s| ensures Get(e, s[i]) >= Get(e, s[j]) {
        if j < |Served(pre)| {
          assert s[i] == Served(pre)[i] && s[j] == Served(pre)[j];
        } else {
          assert s[i] == Served(pre)[i];
          assert s[i] in pre;
          var m :| 0 <= m < n && pre[m] == s[i];
          assert high[m] == s[i] && s[j] == high[n];
        }
      }
    }
  }

  lemma {:induction false} ServedMembers(high: seq<string>)
    ensures forall k :: k in Served(high) <==> k in high && TemplatesFor(k).Some?
  {
    if high != [] {
      var n := |high| - 1;
      ServedMembers(high[..n]);
      assert high == high[..n] + [high[n]];
    }
  }

  /** Happiness has no template list, so it never yields an immediate action. */
  lemma HappinessServesNothing(high: seq<string>)
    ensures "happiness" !in Served(high)
  {
    assert TemplatesFor("happiness") == None;
  }

  // ---------------------------------------------------------------------------
  // generatePersonalizedRecommendations

  datatype Recommendations = Recommendations(immediate: seq<string>, daily: seq<string>, longterm: seq<string>)

  /** `draws[i]` stands for the random draw made when the i-th high emotion is
      visited, and `long1`, `long2` for the two long-term draws. */
  method GeneratePersonalizedRecommendations(emotionData: Table, burnoutScore: int,
                                             draws: seq<nat>, long1: nat, long2: nat)
    returns (rec: Recommendations)
    requires |draws| == |HighEmotions(emotionData)|
    ensures rec.immediate == Dedup(Drawn(HighEmotions(emotionData), draws))
    ensures rec.daily == if burnoutScore > 50 then DailyHigh else DailyLow
    ensures |rec.longterm| == 2
    ensures rec.longterm[0] == LifestyleStrategies[long1 % |LifestyleStrategies|]
    ensures rec.longterm[1] == LifestyleStrategies[long2 % |LifestyleStrategies|]
  {
    var immediate := PushImmediate(HighEmotions(emotionData), draws);

    var daily: seq<string> := [];
    if burnoutScore > 50 {
      daily := daily + DailyHigh;
    } else {
      daily := daily + DailyLow;
    }

    var longterm := [LifestyleStrategies[long1 % |LifestyleStrategies|],
                     LifestyleStrategies[long2 % |LifestyleStrategies|]];

    immediate := Dedup(immediate);
    DailyDistinct();
    DedupOfDistinct(daily);
    daily := Dedup(daily);
    rec := Recommendations(immediate, daily, longterm);
  }

  /** The `forEach` over the high emotions, pushing one drawn strategy for each
      emotion that has a list. */
  method PushImmediate(highEmotions: seq<string>, draws: seq<nat>) returns (immediate: seq<string>)
    requires |draws| == |highEmotions|
    ensures immediate == Drawn(highEmotions, draws)
  {
    immediate := [];
    for i := 0 to |highEmotions|
      invariant immediate == Drawn(highEmotions[..i], draws[..i])
    {
      var templates := TemplatesFor(highEmotions[i]);
      if templates.Some? {
        var strategies := templates.value;
        immediate := immediate + [strategies[draws[i] % |strategies|]];
      }
      assert highEmotions[..i + 1][..i] == highEmotions[..i];
      assert draws[..i + 1][..i] == draws[..i];
    }
    assert highEmotions[..|highEmotions|] == highEmotions && draws[..|draws|] == draws;
  }

  lemma DailyDistinct()
    ensures Distinct(DailyHigh) && Distinct(DailyLow)
  {
  }

  /** The two long-term strategies are not de-duplicated: equal draws give the
      same strategy twice. */
  lemma LongtermMayRepeat(draw: nat)
    ensures var s := LifestyleStrategies[draw % |LifestyleStrategies|];
            [s, s] != Dedup([s, s])
  {
    var s := LifestyleStrategies[draw % |LifestyleStrategies|];
    var r := Dedup([s, s]);
    assert forall x :: x in r ==> x == s;
  }

  // ---------------------------------------------------------------------------
  // generatePsychologicalSummary

  /** The first entry with the greatest score: the head of the stably sorted
      entries. */
  function Dominant(e: Table): (d: (string, int))
    requires e != []
    ensures d in e
    ensures forall i :: 0 <= i < |e| ==> e[i].1 <= d.1
  {
    if |e| == 1 then e[0]
    else
      var rest := Dominant(e[1..]);
      assert forall i :: 1 <= i < |e| ==> e[i] == e[1..][i - 1];
      if e[0].1 >= rest.1 then e[0] else rest
  }

  /** No entry before the dominant one reaches its score. */
  lemma {:induction false} DominantIsFirst(e: Table) returns (i: nat)
    requires e != []
    ensures i < |e| && e[i] == Dominant(e)
    ensures forall j :: 0 <= j < i ==> e[j].1 < e[i].1
  {
    if |e| == 1 || e[0].1 >= Dominant(e[1..]).1 {
      i := 0;
    } else {
      var k := DominantIsFirst(e[1..]);
      i := k + 1;
    }
  }

  /** The `.sort(...)[0]` of the source is the dominant entry. */
  lemma SortHeadIsDominant(e: Table)
    requires e != []
    ensures SortDesc(e)[0] == Dominant(e)
  {
    var h := SortDesc(e)[0];
    var d := Dominant(e);
    SortDescHead(e);
    var i :| 0 <= i < |e| && e[i] == h && forall j :: 0 <= j < i ==> e[j].1 != e[i].1;
    var k := DominantIsFirst(e);
    assert h.1 == d.1;
  }

  const PresencePrefix := "Your journal entry shows a significant presence of "

  const PositiveMood := "Overall, your mood appears positive with optimistic undertones. "
  const SlightlyPositive := "Your overall sentiment is slightly positive, with moments of challenge. "
  const SomeNegative := "Your entry reflects some negative emotions, but there is room for improvement. "
  const MostlyNegative := "Your entry contains predominantly negative sentiments that deserve attention. "

  const ThemesPrefix := "Key themes in your entry include: "

  const Closing := "Remember, feelings are temporary, and you have the strength to navigate through them."

  function EmotionSentence(e: Table): string
  {
    if e == [] then ""
    else var d := Dominant(e); PresencePrefix + d.0 + " (" + IntToString(d.1) + "%). "
  }

  function SentimentSentence(sentimentScore: int): string
  {
    if sentimentScore > 20 then PositiveMood
    else if sentimentScore > 0 then SlightlyPositive
    else if sentimentScore > -20 then SomeNegative
    else MostlyNegative
  }

  function KeywordSentence(keywords: seq<string>): string
  {
    if keywords == [] then ""
    else ThemesPrefix + Join(keywords[..Min(3, |keywords|)], ", ") + ". "
  }

  /** The sentences in their fixed order: emotion, sentiment, keywords, closing. */
  function Summary(e: Table, sentimentScore: int, keywords: seq<string>): string
  {
    EmotionSentence(e) + SentimentSentence(sentimentScore) + KeywordSentence(keywords) + Closing
  }

  method GeneratePsychologicalSummary(emotionData: Table, sentimentScore: int, keywords: seq<string>)
    returns (summary: string)
    ensures summary == Summary(emotionData, sentimentScore, keywords)
  {
    summary := "";
    var sorted := SortDesc(emotionData);
    if |sorted| > 0 {
      var (emotion, score) := sorted[0];
      SortHeadIsDominant(emotionData);
      summary := summary + (PresencePrefix + emotion + " (" + IntToString(score) + "%). ");
    }
    ghost var opening := summary;
    assert opening == EmotionSentence(emotionData);

    if sentimentScore > 20 {
      summary := summary + PositiveMood;
    } else if sentimentScore > 0 {
      summary := summary + SlightlyPositive;
    } else if sentimentScore > -20 {
      summary := summary + SomeNegative;
    } else {
      summary := summary + MostlyNegative;
    }
    assert summary == opening + SentimentSentence(sentimentScore);

    if |keywords| > 0 {
      summary := summary + (ThemesPrefix + Join(keywords[..Min(3, |keywords|)], ", ") + ". ");
    }
    assert summary == opening + SentimentSentence(sentimentScore) + KeywordSentence(keywords);

    summary := summary + Closing;
  }

  /** The summary opens with the presence sentence exactly when the emotion map
      has an entry; the entry it names is `Dominant(e)`. */
  lemma SummaryOpening(e: Table, sentimentScore: int, keywords: seq<string>)
    ensures var s := Summary(e, sentimentScore, keywords);
            (|s| >= |PresencePrefix| && s[..|PresencePrefix|] == PresencePrefix) <==> e != []
  {
    var s := Summary(e, sentimentScore, keywords);
    var sent := SentimentSentence(sentimentScore);
    if e == [] {
      var es := EmotionSentence(e) + sent;
      assert EmotionSentence(e) == "";
      assert es == sent;
      SentimentPartsFromPresence(sentimentScore);
      assert (es + KeywordSentence(keywords))[49] == es[49];
      assert s[49] == sent[49];
      assert |s| < |PresencePrefix| || s[..|PresencePrefix|][49] != PresencePrefix[49];
    } else {
      var d := Dominant(e);
      var p := PresencePrefix;
      AppendKeepsPrefix(p, d.0, p);
      AppendKeepsPrefix(p + d.0, " (", p);
      AppendKeepsPrefix(p + d.0 + " (", IntToString(d.1), p);
      AppendKeepsPrefix(p + d.0 + " (" + IntToString(d.1), "%). ", p);
      AppendKeepsPrefix(EmotionSentence(e), sent, p);
      AppendKeepsPrefix(EmotionSentence(e) + sent, KeywordSentence(keywords), p);
      AppendKeepsPrefix(EmotionSentence(e) + sent + KeywordSentence(keywords), Closing, p);
    }
  }

  lemma AppendKeepsPrefix(x: string, y: string, p: string)
    requires |x| >= |p| && x[..|p|] == p
    ensures |x + y| >= |p| && (x + y)[..|p|] == p
  {
    assert (x + y)[..|p|] == x[..|p|];
  }

  /** No sentiment sentence starts like the presence sentence: they part at
      the fiftieth character at the latest. */
  lemma SentimentPartsFromPresence(sentimentScore: int)
    ensures |SentimentSentence(sentimentScore)| > 49
    ensures SentimentSentence(sentimentScore)[49] != PresencePrefix[49]
  {
    assert PresencePrefix[49] == 'f';
  }

  /** Exactly one of the four sentiment sentences is chosen, by the bands
      above 20, above 0, above -20 and the rest. */
  lemma SentimentBands(sentimentScore: int)
    ensures SentimentSentence(sentimentScore) in [PositiveMood, SlightlyPositive, SomeNegative, MostlyNegative]
    ensures SentimentSentence(sentimentScore) == PositiveMood <==> sentimentScore > 20
    ensures SentimentSentence(sentimentScore) == SlightlyPositive <==> 0 < sentimentScore <= 20
    ensures SentimentSentence(sentimentScore) == SomeNegative <==> -20 < sentimentScore <= 0
    ensures SentimentSentence(sentimentScore) == MostlyNegative <==> sentimentScore <= -20
  {
  }

  /** The summary always ends with the closing sentence. */
  lemma SummaryEndsWithClosing(e: Table, sentimentScore: int, keywords: seq<string>)
    ensures var s := Summary(e, sentimentScore, keywords);
            |s| >= |Closing| && s[|s| - |Closing|..] == Closing
  {
  }

  /** The keyword sentence is absent for no keywords and names at most the
      first three. */
  lemma KeywordSentenceFirstThree(keywords: seq<string>)
    ensures KeywordSentence(keywords) == "" <==> keywords == []
    ensures |keywords| == 1 ==> KeywordSentence(keywords) == ThemesPrefix + keywords[0] + ". "
    ensures |keywords| == 2 ==> KeywordSentence(keywords) == ThemesPrefix + (keywords[0] + ", " + keywords[1]) + ". "
    ensures |keywords| >= 3 ==>
              KeywordSentence(keywords) == ThemesPrefix + (keywords[0] + ", " + keywords[1] + ", " + keywords[2]) + ". "
  {
    if |keywords| >= 3 {
      JoinThree(keywords[..3], ", ");
    } else if |keywords| == 2 {
      assert keywords[..Min(3, |keywords|)] == keywords;
      assert keywords[1..] == [keywords[1]];
      assert Join(keywords, ", ") == keywords[0] + ", " + keywords[1];
    }
  }

  lemma JoinThree(parts: seq<string>, sep: string)
    requires |parts| == 3
    ensures Join(parts, sep) == parts[0] + sep + parts[1] + sep + parts[2]
  {
    assert parts[1..][1..] == [parts[2]];
    assert Join(parts[1..], sep) == parts[1] + sep + parts[2];
  }
}
