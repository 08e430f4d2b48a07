/** The text scorers of backend/utils/emotionDetector.js: keyword-presence
    emotion percentages, lexicon-occurrence sentiment, and the top-ten keyword
    extractor. Text is lower-cased over ASCII before every scan. */
module EmotionDetector {
  import opened Common

  // ---------------------------------------------------------------------------
  // Emotion categories

  /** `emotionKeywords`, in declaration order (which is also the order of the
      keys of every detected-emotion table). */
  const Categories: seq<(string, seq<string>)> := [
    ("anxiety", ["anxious", "nervous", "worried", "scared", "afraid", "panic", "stress", "tense", "apprehensive", "uneasy"]),
    ("stress", ["stressed", "overwhelmed", "pressure", "burden", "exhausted", "drained", "frustrated", "tense", "strain"]),
    ("sadness", ["sad", "depressed", "lonely", "unhappy", "blue", "miserable", "hopeless", "grief", "tears", "gloomy"]),
    ("happiness", ["happy", "joyful", "excited", "glad", "delighted", "wonderful", "amazing", "fantastic", "blessed", "grateful"]),
    ("anger", ["angry", "furious", "rage", "irritated", "annoyed", "mad", "frustrated", "resentment", "hate", "disgusted"]),
    ("fatigue", ["tired", "exhausted", "fatigued", "worn out", "burned out", "drained", "sleepy", "energy low", "lethargic"])
  ]

  function CategoryNames(cats: seq<(string, seq<string>)>): seq<string>
  {
    seq(|cats|, i requires 0 <= i < |cats| => cats[i].0)
  }

  /** The category table is well formed: six distinct names, no keyword list
      repeats a keyword, and no keyword is empty. */
  lemma CategoriesWellFormed()
    ensures |Categories| == 6 && Distinct(CategoryNames(Categories))
    ensures forall i :: 0 <= i < |Categories| ==> Distinct(Categories[i].1)
    ensures forall i, j :: 0 <= i < |Categories| && 0 <= j < |Categories[i].1| ==> |Categories[i].1[j]| > 0
  {
  }

  /** How many keywords of the list occur in the text (presence, not count). */
  function HitCount(text: string, keywords: seq<string>): (n: nat)
    ensures n <= |keywords|
  {
    if keywords == [] then 0
    else
      HitCount(text, keywords[..|keywords| - 1]) +
      (if Contains(text, keywords[|keywords| - 1]) then 1 else 0)
  }

  /** For a list without repetitions, the raw score is the number of distinct
      keywords found: a keyword repeated in the text adds nothing. */
  lemma {:induction false} HitCountIsDistinctHits(text: string, keywords: seq<string>)
    requires Distinct(keywords)
    ensures HitCount(text, keywords) == |set k | k in keywords && Contains(text, k)|
  {
    if keywords != [] {
      var p := keywords[..|keywords| - 1];
      var x := keywords[|keywords| - 1];
      assert Distinct(p);
      HitCountIsDistinctHits(text, p);
      var before := set k | k in p && Contains(text, k);
      assert keywords == p + [x];
      assert x !in p;
      if Contains(text, x) {
        assert (set k | k in keywords && Contains(text, k)) == before + {x};
      } else {
        assert (set k | k in keywords && Contains(text, k)) == before;
      }
    }
  }

  /** `emotions` after the first loop: categories with a non-zero raw score, in
      table order. */
  function RawScores(text: string, cats: seq<(string, seq<string>)>): (m: Table)
    ensures |m| <= |cats|
    ensures forall i :: 0 <= i < |m| ==> m[i].1 > 0
  {
    if cats == [] then []
    else
      var m := RawScores(text, cats[..|cats| - 1]);
      var c := cats[|cats| - 1];
      var score := HitCount(text, c.1);
      if score > 0 then m + [(c.0, score)] else m
  }

  /** The raw table's keys are category names, each at most once. */
  lemma {:induction false} RawScoresDistinct(text: string, cats: seq<(string, seq<string>)>)
    requires Distinct(CategoryNames(cats))
    ensures DistinctKeys(RawScores(text, cats))
    ensures forall k :: k in Keys(RawScores(text, cats)) ==> k in CategoryNames(cats)
  {
    if cats != [] {
      var p := cats[..|cats| - 1];
      var c := cats[|cats| - 1];
      var n := |cats| - 1;
      assert CategoryNames(p) == CategoryNames(cats)[..n];
      RawScoresDistinct(text, p);
      var m := RawScores(text, p);
      assert c.0 !in CategoryNames(p) by {
        assert CategoryNames(cats)[n] == c.0;
      }
      var score := HitCount(text, c.1);
      if score > 0 {
        KeysSnoc(m, (c.0, score));
        assert forall j :: 0 <= j < |m| ==> Keys(m)[j] == m[j].0;
      }
    }
  }

  /** A category name is a key of the raw table exactly when the category has a
      hit, and it is then valued with the category's hit count. */
  lemma RawScoresKeys(text: string, cats: seq<(string, seq<string>)>)
    requires Distinct(CategoryNames(cats))
    ensures forall i :: 0 <= i < |cats| ==>
              (cats[i].0 in Keys(RawScores(text, cats)) <==> HitCount(text, cats[i].1) > 0)
    ensures forall i :: 0 <= i < |cats| ==> Get(RawScores(text, cats), cats[i].0) == HitCount(text, cats[i].1)
  {
    RawScoresMembers(text, cats);
    RawScoresValues(text, cats);
  }

  lemma {:induction false} RawScoresMembers(text: string, cats: seq<(string, seq<string>)>)
    requires Distinct(CategoryNames(cats))
    ensures forall i :: 0 <= i < |cats| ==>
              (cats[i].0 in Keys(RawScores(text, cats)) <==> HitCount(text, cats[i].1) > 0)
  {
    if cats != [] {
      var p := cats[..|cats| - 1];
      var c := cats[|cats| - 1];
      var n := |cats| - 1;
      assert CategoryNames(p) == CategoryNames(cats)[..n];
      RawScoresMembers(text, p);
      RawScoresDistinct(text, p);
      var m := RawScores(text, p);
      assert c.0 !in CategoryNames(p) by {
        assert CategoryNames(cats)[n] == c.0;
      }
      var score := HitCount(text, c.1);
      if score > 0 {
        KeysSnoc(m, (c.0, score));
      }
      forall i | 0 <= i < n
        ensures cats[i].0 in Keys(RawScores(text, cats)) <==> HitCount(text, cats[i].1) > 0
      {
        assert p[i] == cats[i];
        assert CategoryNames(cats)[i] == cats[i].0;
      }
    }
  }

  lemma {:induction false} RawScoresValues(text: string, cats: seq<(string, seq<string>)>)
    requires Distinct(CategoryNames(cats))
    ensures forall i :: 0 <= i < |cats| ==> Get(RawScores(text, cats), cats[i].0) == HitCount(text, cats[i].1)
  {
    if cats != [] {
      var p := cats[..|cats| - 1];
      var c := cats[|cats| - 1];
      var n := |cats| - 1;
      assert CategoryNames(p) == CategoryNames(cats)[..n];
      RawScoresValues(text, p);
      RawScoresDistinct(text, p);
      var m := RawScores(text, p);
      assert c.0 !in CategoryNames(p) by {
        assert CategoryNames(cats)[n] == c.0;
      }
      assert c.0 !in Keys(m);
      GetMissing(m, c.0);
      var score := HitCount(text, c.1);
      if score > 0 {
        GetSnoc(m, (c.0, score));
      }
      forall i | 0 <= i < n
        ensures Get(RawScores(text, cats), cats[i].0) == HitCount(text, cats[i].1)
      {
        assert p[i] == cats[i];
        assert CategoryNames(cats)[i] == cats[i].0;
      }
    }
  }

  lemma {:induction false} RawScoresNoHits(text: string, cats: seq<(string, seq<string>)>)
    requires forall i :: 0 <= i < |cats| ==> HitCount(text, cats[i].1) == 0
    ensures RawScores(text, cats) == []
  {
    if cats != [] {
      RawScoresNoHits(text, cats[..|cats| - 1]);
    }
  }

  /** Appending a fresh key leaves the other lookups alone. */
  lemma {:induction false} GetSnoc(m: Table, x: (string, int))
    requires x.0 !in Keys(m)
    ensures Get(m + [x], x.0) == x.1
    ensures forall k :: k != x.0 ==> Get(m + [x], k) == Get(m, k)
  {
    if m != [] {
      assert (m + [x])[1..] == m[1..] + [x];
      assert Keys(m)[0] == m[0].0;
      assert Keys(m[1..]) == Keys(m)[1..];
      GetSnoc(m[1..], x);
    }
  }

  /** Sum of the values (`totalScore`). */
  function Total(m: Table): int
  {
    if m == [] then 0 else Total(m[..|m| - 1]) + m[|m| - 1].1
  }

  /** `normalizedEmotions`: every value v becomes `Math.round(v / den * 100)`. */
  function Normalize(m: Table, den: int): (r: Table)
    requires den > 0
    ensures |r| == |m| && Keys(r) == Keys(m)
  {
    if m == [] then []
    else
      var p := Normalize(m[..|m| - 1], den);
      var x := m[|m| - 1];
      KeysSnoc(p, (x.0, Round(100 * x.1, den)));
      KeysSnoc(m[..|m| - 1], x);
      assert m == m[..|m| - 1] + [x];
      p + [(x.0, Round(100 * x.1, den))]
  }

  lemma {:induction false} NormalizeAt(m: Table, den: int, i: nat)
    requires den > 0 && i < |m|
    ensures Normalize(m, den)[i] == (m[i].0, Round(100 * m[i].1, den))
  {
    if i < |m| - 1 {
      NormalizeAt(m[..|m| - 1], den, i);
    }
  }

  /** `detectEmotions(text)` as a value. */
  function EmotionScores(text: string): Table
  {
    var raw := RawScores(Lower(text), Categories);
    var total := Total(raw);
    TotalPositive(raw);
    Normalize(raw, if total == 0 then 1 else total)
  }

  /** detectEmotions: the category loop (bumping `score` and `totalScore`),
      then the normalising loop. */
  method DetectEmotions(text: string) returns (normalized: Table)
    ensures normalized == EmotionScores(text)
  {
    var lowercase := Lower(text);
    var emotions, totalScore := ScoreCategories(lowercase, Categories);
    var den := if totalScore == 0 then 1 else totalScore;
    normalized := NormalizeScores(emotions, den);
  }

  /** The `for (const [emotion, score] of ...)` loop of detectEmotions: each
      score becomes its rounded percentage of `den`. */
  method NormalizeScores(emotions: Table, den: int) returns (normalized: Table)
    requires den > 0
    ensures normalized == Normalize(emotions, den)
  {
    normalized := [];
    var i := 0;
    while i < |emotions|
      invariant 0 <= i <= |emotions|
      invariant normalized == Normalize(emotions[..i], den)
    {
      normalized := normalized + [(emotions[i].0, Round(emotions[i].1 * 100, den))];
      assert emotions[..i + 1][..i] == emotions[..i];
      i := i + 1;
    }
    assert emotions[..i] == emotions;
  }

  /** The `for (const [emotion, keywords] of ...)` loop of detectEmotions: keep
      each category with a non-zero score and add it to `totalScore`. */
  method ScoreCategories(lowercase: string, cats: seq<(string, seq<string>)>)
    returns (emotions: Table, totalScore: int)
    ensures emotions == RawScores(lowercase, cats)
    ensures totalScore == Total(emotions) && totalScore >= 0
  {
    emotions := [];
    totalScore := 0;
    var c := 0;
    while c < |cats|
      invariant 0 <= c <= |cats|
      invariant emotions == RawScores(lowercase, cats[..c])
      invariant totalScore == Total(emotions)
    {
      var emotion := cats[c].0;
      var keywords := cats[c].1;
      var score := CountHits(lowercase, keywords);
      if score > 0 {
        emotions := emotions + [(emotion, score)];
        totalScore := totalScore + score;
        assert emotions[..|emotions| - 1] == RawScores(lowercase, cats[..c]);
      }
      assert cats[..c + 1][..c] == cats[..c];
      c := c + 1;
    }
    assert cats[..c] == cats;
    TotalPositive(emotions);
  }

  /** The `keywords.forEach` of detectEmotions: bump `score` once per keyword
      that the text includes. */
  method CountHits(lowercase: string, keywords: seq<string>) returns (score: nat)
    ensures score == HitCount(lowercase, keywords)
  {
    score := 0;
    var j := 0;
    while j < |keywords|
      invariant 0 <= j <= |keywords|
      invariant score == HitCount(lowercase, keywords[..j])
    {
      if Contains(lowercase, keywords[j]) {
        score := score + 1;
      }
      assert keywords[..j + 1][..j] == keywords[..j];
      j := j + 1;
    }
    assert keywords[..j] == keywords;
  }

  /** Keys of the result: exactly the categories with at least one keyword hit
      (absent, not 0, otherwise), valued from that category's hit count. */
  lemma DetectedCategories(text: string)
    ensures DistinctKeys(EmotionScores(text))
    ensures forall k :: k in Keys(EmotionScores(text)) ==> k in CategoryNames(Categories)
    ensures forall i :: 0 <= i < |Categories| ==>
              (Categories[i].0 in Keys(EmotionScores(text)) <==> HitCount(Lower(text), Categories[i].1) > 0)
  {
    CategoriesWellFormed();
    RawScoresDistinct(Lower(text), Categories);
    RawScoresKeys(Lower(text), Categories);
    var raw := RawScores(Lower(text), Categories);
    var r := EmotionScores(text);
    assert Keys(r) == Keys(raw);
    assert forall i :: 0 <= i < |r| ==> r[i].0 == Keys(r)[i] && raw[i].0 == Keys(raw)[i];
  }

  /** The raw score of a present category is the number of distinct keywords of
      its list found in the lower-cased text, so at most the list's length. */
  lemma RawScoreOfCategory(text: string, i: nat)
    requires i < |Categories|
    ensures var hits := set k | k in Categories[i].1 && Contains(Lower(text), k);
            Get(RawScores(Lower(text), Categories), Categories[i].0) == |hits| <= |Categories[i].1|
  {
    CategoriesWellFormed();
    RawScoresKeys(Lower(text), Categories);
    HitCountIsDistinctHits(Lower(text), Categories[i].1);
  }

  lemma {:induction false} HitCountPositive(text: string, keywords: seq<string>, j: nat)
    requires j < |keywords| && Contains(text, keywords[j])
    ensures HitCount(text, keywords) > 0
  {
    if j < |keywords| - 1 {
      HitCountPositive(text, keywords[..|keywords| - 1], j);
    }
  }

  /** One word can feed several categories: "stressed" contains the anxiety
      keyword "stress" and is itself a stress keyword. */
  lemma OneWordTwoCategories()
    ensures "anxiety" in Keys(EmotionScores("I feel stressed"))
    ensures "stress" in Keys(EmotionScores("I feel stressed"))
  {
    var t := "I feel stressed";
    var l := Lower(t);
    assert l == "i feel stressed";
    assert OccursAt(l, "stress", 7) && OccursAt(l, "stressed", 7);
    assert Categories[0].1[6] == "stress" && Categories[1].1[0] == "stressed";
    HitCountPositive(l, Categories[0].1, 6);
    HitCountPositive(l, Categories[1].1, 0);
    DetectedCategories(t);
  }

  /** The normalising divisor is a real total whenever some category is present:
      the `|| 1` guard only ever stands in for an empty table. */
  lemma {:induction false} TotalPositive(m: Table)
    requires forall i :: 0 <= i < |m| ==> m[i].1 > 0
    ensures m == [] <==> Total(m) == 0
    ensures Total(m) >= |m|
  {
    if m != [] {
      TotalPositive(m[..|m| - 1]);
    }
  }

  /** Text in which no keyword of any category occurs (the empty text among
      them) yields the empty table. */
  lemma NoHitsNoEmotions(text: string)
    requires forall i, j :: 0 <= i < |Categories| && 0 <= j < |Categories[i].1| ==>
               !Contains(Lower(text), Categories[i].1[j])
    ensures EmotionScores(text) == []
  {
    forall i | 0 <= i < |Categories| ensures HitCount(Lower(text), Categories[i].1) == 0 {
      NoHitsNoCount(Lower(text), Categories[i].1);
    }
    RawScoresNoHits(Lower(text), Categories);
  }

  lemma {:induction false} NoHitsNoCount(text: string, keywords: seq<string>)
    requires forall j :: 0 <= j < |keywords| ==> !Contains(text, keywords[j])
    ensures HitCount(text, keywords) == 0
  {
    if keywords != [] {
      NoHitsNoCount(text, keywords[..|keywords| - 1]);
    }
  }

  lemma EmptyTextNoEmotions()
    ensures EmotionScores("") == []
  {
    CategoriesWellFormed();
    assert Lower("") == "";
    forall i, j | 0 <= i < |Categories| && 0 <= j < |Categories[i].1|
      ensures !Contains(Lower(""), Categories[i].1[j])
    {
      NothingInEmpty(Categories[i].1[j]);
    }
    NoHitsNoEmotions("");
  }

  /** Each rounded share lies within half a point of its exact share, so the
      k shares sum to 100 within k/2 (scaled by 2 * den to stay in integers). */
  lemma {:induction false} NormalizeSum(m: Table, den: int)
    requires den > 0
    ensures -|m| * den <= 2 * den * Total(Normalize(m, den)) - 200 * Total(m) <= |m| * den
  {
    if m != [] {
      var p := m[..|m| - 1];
      var x := m[|m| - 1];
      var r := Round(100 * x.1, den);
      NormalizeSum(p, den);
      var np := Normalize(p, den);
      assert Normalize(m, den) == np + [(x.0, r)];
      assert (np + [(x.0, r)])[..|np|] == np;
      assert Total(Normalize(m, den)) == Total(np) + r;
      assert Total(m) == Total(p) + x.1;
      ShareStep(den, |p|, Total(np), Total(p), r, x.1);
    }
  }

  /** One more share keeps the scaled sum within one more half point. */
  lemma ShareStep(den: int, n: int, a: int, t: int, r: int, v: int)
    requires den > 0
    requires -n * den <= 2 * den * a - 200 * t <= n * den
    requires 2 * den * r <= 2 * (100 * v) + den < 2 * den * r + 2 * den
    ensures -(n + 1) * den <= 2 * den * (a + r) - 200 * (t + v) <= (n + 1) * den
  {
    assert 2 * den * (a + r) == 2 * den * a + 2 * den * r;
    assert (n + 1) * den == n * den + den;
  }

  lemma CancelScale(d: int, k: int, s: int)
    requires d > 0
    requires -k * d <= 2 * d * s - 200 * d <= k * d
    ensures -k <= 2 * (s - 100) <= k
  {
    var x := 2 * (s - 100);
    assert 2 * d * s - 200 * d == d * x;
    if x > k {
      MulLeft(d, k + 1, x);
    }
    if x < -k {
      MulLeft(d, x, -k - 1);
    }
  }

  /** Percentages: each in 0..100, a lone category gets 100, and the k
      present percentages sum to 100 within k/2. */
  lemma DetectedPercentages(text: string)
    ensures forall i :: 0 <= i < |EmotionScores(text)| ==> 0 <= EmotionScores(text)[i].1 <= 100
    ensures |EmotionScores(text)| == 1 ==> EmotionScores(text)[0].1 == 100
    ensures var k := |EmotionScores(text)|;
            k == 0 || -k <= 2 * (Total(EmotionScores(text)) - 100) <= k
  {
    var raw := RawScores(Lower(text), Categories);
    var total := Total(raw);
    TotalPositive(raw);
    if raw != [] {
      var r := Normalize(raw, total);
      forall i | 0 <= i < |r| ensures 0 <= r[i].1 <= 100 {
        ShareInRange(raw, i);
      }
      if |r| == 1 {
        LoneShare(raw);
      }
      SharesSum(raw);
    }
  }

  lemma ShareInRange(raw: Table, i: nat)
    requires forall j :: 0 <= j < |raw| ==> raw[j].1 > 0
    requires i < |raw|
    ensures Total(raw) > 0 && 0 <= Normalize(raw, Total(raw))[i].1 <= 100
  {
    TotalPositive(raw);
    NormalizeAt(raw, Total(raw), i);
    ValueBelowTotal(raw, i);
    RoundWithin(100 * raw[i].1, Total(raw), 0, 100);
  }

  lemma LoneShare(raw: Table)
    requires |raw| == 1 && raw[0].1 > 0
    ensures Total(raw) > 0 && Normalize(raw, Total(raw))[0].1 == 100
  {
    assert raw[..0] == [];
    assert Total(raw) == raw[0].1;
    NormalizeAt(raw, Total(raw), 0);
    RoundWithin(100 * raw[0].1, Total(raw), 100, 100);
  }

  lemma SharesSum(raw: Table)
    requires raw != [] && forall j :: 0 <= j < |raw| ==> raw[j].1 > 0
    ensures Total(raw) > 0
    ensures -|raw| <= 2 * (Total(Normalize(raw, Total(raw))) - 100) <= |raw|
  {
    TotalPositive(raw);
    var den := Total(raw);
    NormalizeSum(raw, den);
    var k := |raw|;
    CancelScale(den, k, Total(Normalize(raw, den)));
  }

  lemma {:induction false} ValueBelowTotal(m: Table, i: nat)
    requires i < |m|
    requires forall j :: 0 <= j < |m| ==> m[j].1 > 0
    ensures m[i].1 <= Total(m)
  {
    var p := m[..|m| - 1];
    TotalPositive(p);
    if i < |m| - 1 {
      ValueBelowTotal(p, i);
    }
  }

  // ---------------------------------------------------------------------------
  // Sentiment

  /** The two lexicons of calculateSentimentScore; "grateful" is listed twice. */
  const PositiveWords: seq<string> := ["good", "great", "excellent", "wonderful", "amazing", "fantastic", "love", "happy", "enjoyed", "blessed", "grateful", "grateful"]
  const NegativeWords: seq<string> := ["bad", "terrible", "awful", "horrible", "hate", "angry", "sad", "depressed", "anxiety", "worst", "never"]

  /** `(s.match(new RegExp(w, 'g')) || []).length` for a word without regular
      expression metacharacters: the matches found scanning left to right, each
      search resuming after the previous match. */
  function Occurrences(s: string, w: string): (n: nat)
    requires |w| > 0
    ensures n * |w| <= |s|
    decreases |s|
  {
    if |s| < |w| then 0
    else if s[..|w|] == w then 1 + Occurrences(s[|w|..], w)
    else Occurrences(s[1..], w)
  }

  predicate NonEmptyWords(words: seq<string>)
  {
    forall i :: 0 <= i < |words| ==> |words[i]| > 0
  }

  /** The occurrences of all lexicon entries, added up entry by entry. */
  function LexiconCount(s: string, words: seq<string>): nat
    requires NonEmptyWords(words)
  {
    if words == [] then 0
    else LexiconCount(s, words[..|words| - 1]) + Occurrences(s, words[|words| - 1])
  }

  /** `Math.round((p - n) / (p + n) * 100)`, or 0 without any hit. */
  function SentimentOf(p: nat, n: nat): int
  {
    if p + n == 0 then 0 else Round(100 * (p - n), p + n)
  }

  /** The score lies in -100..100; it is 0 without hits or with a balance, +100
      or -100 with hits of one polarity only; a positive (negative) score means
      more positive (negative) hits, and the converse holds up to 200 hits. */
  lemma SentimentSigns(p: nat, n: nat)
    ensures var r := SentimentOf(p, n);
            -100 <= r <= 100 &&
            (p + n == 0 || p == n ==> r == 0) &&
            (n == 0 && p > 0 ==> r == 100) &&
            (p == 0 && n > 0 ==> r == -100) &&
            (r > 0 ==> p > n) && (r < 0 ==> p < n) &&
            (p > n && p + n <= 200 ==> r > 0) &&
            (p < n && p + n <= 200 ==> r < 0)
  {
    if p + n > 0 {
      var t := p + n;
      RoundWithin(100 * (p - n), t, -100, 100);
      if p == n { RoundWithin(0, t, 0, 0); }
      if n == 0 { RoundWithin(100 * p, t, 100, 100); }
      if p == 0 { RoundWithin(-100 * n, t, -100, -100); }
      if p > n && t <= 200 { RoundPositive(p - n, t); }
      if p < n && t <= 200 { RoundNegative(n - p, t); }
      if p <= n { RoundWithin(100 * (p - n), t, -100, 0); }
      if p >= n { RoundWithin(100 * (p - n), t, 0, 100); }
    }
  }

  lemma RoundPositive(a: int, t: int)
    requires a >= 1 && 0 < t <= 200
    ensures Round(100 * a, t) > 0
  {
    assert 200 * a + t >= 2 * t;
  }

  lemma RoundNegative(a: int, t: int)
    requires a >= 1 && 0 < t <= 200 && (t == 200 ==> a >= 2)
    ensures Round(-100 * a, t) < 0
  {
    assert -200 * a + t < 0;
  }

  /** With many hits a one-occurrence majority rounds to 0: the sign of the
      score follows the balance only up to 200 hits. */
  lemma NarrowMajorityRoundsToZero()
    ensures SentimentOf(101, 100) == 0 && SentimentOf(100, 101) == 0
  {
  }

  /** The ratio is rounded exactly: 29 positive against 51 negative hits give
      -27.5, which rounds to -27, and 63 against 17 give 57.5, which rounds to
      58. */
  lemma ExactQuotientRounding()
    ensures SentimentOf(29, 51) == -27 && SentimentOf(63, 17) == 58
  {
  }

  function SentimentScore(text: string): int
  {
    var s := Lower(text);
    SentimentOf(LexiconCount(s, PositiveWords), LexiconCount(s, NegativeWords))
  }

  /** calculateSentimentScore: one counting loop per lexicon, then the ratio. */
  method CalculateSentimentScore(text: string) returns (sentiment: int)
    ensures sentiment == SentimentScore(text)
    ensures -100 <= sentiment <= 100
  {
    var lowercase := Lower(text);
    var positiveCount: int := CountLexicon(lowercase, PositiveWords);
    var negativeCount: int := CountLexicon(lowercase, NegativeWords);
    var total := positiveCount + negativeCount;
    if total == 0 {
      return 0;
    }
    sentiment := Round((positiveCount - negativeCount) * 100, total);
    SentimentSigns(positiveCount, negativeCount);
  }

  /** One `words.forEach` of calculateSentimentScore: add up the match counts. */
  method CountLexicon(lowercase: string, words: seq<string>) returns (count: nat)
    requires NonEmptyWords(words)
    ensures count == LexiconCount(lowercase, words)
  {
    count := 0;
    var i := 0;
    while i < |words|
      invariant 0 <= i <= |words|
      invariant count == LexiconCount(lowercase, words[..i])
    {
      count := count + Occurrences(lowercase, words[i]);
      assert words[..i + 1][..i] == words[..i];
      i := i + 1;
    }
    assert words[..i] == words;
  }

  /** The empty text scores 0. */
  lemma EmptyTextNeutral()
    ensures SentimentScore("") == 0
  {
    assert Lower("") == "";
    NoOccurrencesInEmpty(PositiveWords);
    NoOccurrencesInEmpty(NegativeWords);
  }

  lemma {:induction false} NoOccurrencesInEmpty(words: seq<string>)
    requires NonEmptyWords(words)
    ensures LexiconCount("", words) == 0
  {
    if words != [] {
      NoOccurrencesInEmpty(words[..|words| - 1]);
    }
  }

  /** Matches are not word-bounded: "sad" is found inside "sadness". */
  lemma MatchesInsideWords()
    ensures Occurrences("sadness", "sad") == 1
  {
    assert "sadness"[..3] == "sad";
    assert "sadness"[3..] == "ness";
    assert "ness"[..3][0] == 'n';
    assert "ness"[1..] == "ess";
    assert "ess"[..3][0] == 'e';
    assert "ess"[1..] == "ss";
    assert Occurrences("ss", "sad") == 0;
  }

  /** Because "grateful" is listed twice, each of its occurrences adds 2 to the
      positive count. */
  lemma GratefulCountsTwice(s: string)
    ensures LexiconCount(s, PositiveWords) ==
            LexiconCount(s, PositiveWords[..10]) + 2 * Occurrences(s, "grateful")
  {
    assert PositiveWords[..12][..11] == PositiveWords[..11];
    assert PositiveWords[..11][..10] == PositiveWords[..10];
    assert PositiveWords[..12] == PositiveWords;
  }

  // ---------------------------------------------------------------------------
  // Keywords

  const CommonWords: set<string> := {"the", "a", "an", "and", "or", "but", "in", "on", "at", "to", "for", "of", "with", "is", "are", "am", "was", "were", "be", "been", "being", "have", "has", "had", "do", "does", "did", "will", "would", "could", "should", "may", "might"}

  /** `\w` without the `u` flag. */
  predicate IsWordChar(c: char)
  {
    'a' <= c <= 'z' || 'A' <= c <= 'Z' || '0' <= c <= '9' || c == '_'
  }

  /** Length of the run of word characters that starts `s`. */
  function WordRun(s: string): (n: nat)
    ensures n <= |s|
    ensures forall i :: 0 <= i < n ==> IsWordChar(s[i])
    ensures n < |s| ==> !IsWordChar(s[n])
  {
    if s == [] || !IsWordChar(s[0]) then 0 else 1 + WordRun(s[1..])
  }

  /** `s.match(/\b[\w]+\b/g) || []`: the maximal runs of word characters. */
  function Tokens(s: string): (ts: seq<string>)
    ensures forall i :: 0 <= i < |ts| ==> |ts[i]| > 0 && forall j :: 0 <= j < |ts[i]| ==> IsWordChar(ts[i][j])
    decreases |s|
  {
    if s == [] then []
    else if !IsWordChar(s[0]) then Tokens(s[1..])
    else
      var n := WordRun(s);
      [s[..n]] + Tokens(s[n..])
  }

  /** The `.filter` step: longer than four characters and not a common word. */
  function Candidates(ws: seq<string>): (r: seq<string>)
    ensures forall w :: w in r ==> w in ws && |w| > 4 && w !in CommonWords
    ensures forall w :: |w| > 4 && w !in CommonWords ==> multiset(r)[w] == multiset(ws)[w]
  {
    if ws == [] then []
    else
      assert ws == [ws[0]] + ws[1..];
      (if |ws[0]| > 4 && ws[0] !in CommonWords then [ws[0]] else []) + Candidates(ws[1..])
  }

  /** The `.reduce` step: word frequencies, keyed in order of first appearance. */
  function Tally(ws: seq<string>): Table
  {
    if ws == [] then [] else Add(Tally(ws[..|ws| - 1]), ws[|ws| - 1], 1)
  }

  /** The keys of the frequency table are the distinct words, in order of
      first appearance. */
  lemma {:induction false} TallyKeys(ws: seq<string>)
    ensures Keys(Tally(ws)) == Dedup(ws)
    ensures DistinctKeys(Tally(ws))
  {
    if ws != [] {
      TallyKeys(ws[..|ws| - 1]);
    }
    var t := Tally(ws);
    assert forall i :: 0 <= i < |t| ==> Keys(t)[i] == t[i].0;
  }

  /** Every word is counted exactly as often as it occurs. */
  lemma {:induction false} TallyCounts(ws: seq<string>)
    ensures forall w :: Get(Tally(ws), w) == multiset(ws)[w]
  {
    if ws != [] {
      var p := ws[..|ws| - 1];
      var x := ws[|ws| - 1];
      TallyCounts(p);
      assert ws == p + [x];
      assert multiset(ws) == multiset(p) + multiset{x};
    }
  }

  /** The `.sort` step of extractKeywords on its frequency table. */
  function Ranked(text: string): Table
  {
    SortDesc(Tally(Candidates(Tokens(Lower(text)))))
  }

  /** extractKeywords: the first ten tokens of the ranking. */
  function ExtractKeywords(text: string): seq<string>
  {
    var ranked := Ranked(text);
    Keys(ranked[..Min(10, |ranked|)])
  }

  lemma KeywordsAreRankedKeys(text: string)
    ensures var ranked := Ranked(text);
            var r := ExtractKeywords(text);
            |r| == Min(10, |ranked|) && forall i :: 0 <= i < |r| ==> r[i] == ranked[i].0
  {
    var ranked := Ranked(text);
    var r := ExtractKeywords(text);
    forall i | 0 <= i < |r| ensures r[i] == ranked[i].0 {
      assert r[i] == Keys(ranked[..Min(10, |ranked|)])[i];
    }
  }

  /** At most ten keywords, no one twice. */
  lemma KeywordsDistinct(text: string)
    ensures |ExtractKeywords(text)| <= 10 && Distinct(ExtractKeywords(text))
  {
    KeywordsAreRankedKeys(text);
    RankedEntries(Candidates(Tokens(Lower(text))));
  }

  /** Each keyword is a token of the text, longer than four characters and not
      a common word. */
  lemma KeywordsFiltered(text: string)
    ensures forall w :: w in ExtractKeywords(text) ==>
              |w| > 4 && w !in CommonWords && w in Tokens(Lower(text))
  {
    KeywordsAreRankedKeys(text);
    RankedEntries(Candidates(Tokens(Lower(text))));
  }

  /** Keywords come in non-increasing order of frequency. */
  lemma KeywordsByFrequency(text: string)
    ensures var r := ExtractKeywords(text);
            var ws := Candidates(Tokens(Lower(text)));
            forall i, j :: 0 <= i < j < |r| ==> multiset(ws)[r[i]] >= multiset(ws)[r[j]]
  {
    KeywordsAreRankedKeys(text);
    RankedEntries(Candidates(Tokens(Lower(text))));
  }

  /** The entries of the ranking are the distinct candidate words, each with its
      frequency, in non-increasing order. */
  lemma RankedEntries(ws: seq<string>)
    ensures var ranked := SortDesc(Tally(ws));
            DistinctKeys(ranked) && SortedDesc(ranked) &&
            forall i :: 0 <= i < |ranked| ==> ranked[i].0 in ws && ranked[i].1 == multiset(ws)[ranked[i].0]
  {
    var t := Tally(ws);
    var ranked := SortDesc(t);
    TallyKeys(ws);
    TallyCounts(ws);
    SortDescCorrect(t);
    SortDescKeys(t);
    forall i | 0 <= i < |ranked|
      ensures ranked[i].0 in ws && ranked[i].1 == multiset(ws)[ranked[i].0]
    {
      assert ranked[i] in multiset(t);
      var k :| 0 <= k < |t| && t[k] == ranked[i];
      GetAt(t, k);
      assert Keys(t)[k] == t[k].0;
    }
  }

  /** Ties keep their first-appearance order: within each frequency, the ranking
      lists tokens exactly as the first-appearance table does. */
  lemma KeywordTiesKeepFirstAppearance(text: string, c: int)
    ensures var ws := Candidates(Tokens(Lower(text)));
            WithValue(Ranked(text), c) == WithValue(Tally(ws), c) &&
            Keys(Tally(ws)) == Dedup(ws)
  {
    var ws := Candidates(Tokens(Lower(text)));
    SortDescCorrect(Tally(ws));
    TallyKeys(ws);
  }
}
