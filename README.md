# MindMirror-AI backend core in Dafny

This project models the analysis core of the MindMirror-AI journaling backend and proves properties of it:

- **Emotion detector.** `detectEmotions` scores six emotion categories by keyword hits and turns the scores into rounded percentages. `calculateSentimentScore` counts positive and negative lexicon matches. `extractKeywords` returns the ten most frequent long, non-common words.
- **Burnout calculator.** It computes the weighted burnout score from sentiment, stress plus anxiety, fatigue and the trend of the last three entries. It also maps the score to a risk level and builds the risk analysis: concerns, strengths and the default concern.
- **Recommendation generator.** It builds immediate, daily and long-term recommendations and writes the psychological summary paragraph.
- **Analysis routes.** The routes produce the dashboard aggregation (averages, per-emotion distribution, the last seven entries as trend and weekly data), the entry listing with 100-character summaries, and the chronological trend rows.
- **Journal routes.** The in-memory journal table is a class holding a sequence of journals. It has create (with content validation and default title and date), get by id, and delete by id. Ids are parsed as JavaScript `parseInt` does.

How JavaScript values are modelled:

- JavaScript objects used as emotion maps become association lists (`Common.Table`, a `seq<(string, int)>` in insertion order).
- A missing key reads as `0`, as `x || 0` does.
- `Math.round(a / b)` is `Common.Round`.
- The array `sort((a, b) => b[1] - a[1])`, which is stable, is one insertion sort, `Common.SortDesc`. It is proved sorted, a permutation and stable.
- `[...new Set(xs)]` is `Common.Dedup`.
- `Math.random()` becomes indices the caller supplies.
- Date formatting and the clock become parameters.

Files:

- `common.dfy`: shared values and the JavaScript operations above.
- `emotion_detector.dfy`
- `burnout_calculator.dfy`
- `ai_recommendations.dfy`
- `analysis_routes.dfy`
- `journal_routes.dfy`

Each loop in the source becomes a method with a `while` or `for` loop. The method is proved equal to a specification function, and the lemmas state the properties of that function.

## Model

| member | source | states |
|---|---|---|
| Common.Round | backend/utils/emotionDetector.js:39 | `Math.round(num / den)` for a positive divisor: the result is the integer nearest to the quotient, with halves rounded up |
| Common.RoundWithin | backend/routes/analysis.js:60 | a rounded quotient of a value between `den*lo` and `den*hi` stays between `lo` and `hi` |
| Common.Add | backend/utils/emotionDetector.js:76 | `acc[k] = (acc[k] \|\| 0) + v`: the key is appended only when new, and only that key's value grows by `v` |
| Common.AddKeepsDistinct | backend/routes/analysis.js:54 | accumulating into a map never duplicates a key |
| Common.Dedup | backend/utils/aiRecommendations.js:95-96 | `[...new Set(xs)]` has no repeats, the same members, and is no longer than its input |
| Common.DedupOfDistinct | backend/utils/aiRecommendations.js:95 | a list that already has no repeats is left unchanged by the deduplication |
| Common.SortDescCorrect | backend/utils/emotionDetector.js:81 | the descending sort by value yields a list ordered by non-increasing value, is a permutation of its input, and keeps entries of equal value in their original order (stability) |
| Common.SortDescKeys | backend/utils/aiRecommendations.js:64 | sorting keeps the set of keys and keeps keys distinct |
| Common.SortDescHead | backend/utils/aiRecommendations.js:104-105 | the head of the sorted list is an entry of maximal value, and the first such entry of the input |
| Common.ReverseAt | backend/routes/analysis.js:68 | `reverse()` puts element `i` at position `n-1-i` |
| EmotionDetector.CategoriesWellFormed | backend/utils/emotionDetector.js:4-11 | six categories with distinct names, no keyword listed twice in a category, no empty keyword |
| EmotionDetector.HitCountIsDistinctHits | backend/utils/emotionDetector.js:24-29 | a category's raw score is the number of its distinct keywords that occur as substrings of the lower-cased text |
| EmotionDetector.RawScoresKeys | backend/utils/emotionDetector.js:23-34 | a category appears in the raw scores iff at least one of its keywords occurs; its value is its hit count |
| EmotionDetector.RawScoresDistinct | backend/utils/emotionDetector.js:30-33 | raw scores hold each category at most once and only category names |
| EmotionDetector.ScoreCategories | backend/utils/emotionDetector.js:21-34 | the scoring loop yields the raw-score table and its total, which is non-negative |
| EmotionDetector.CountHits | backend/utils/emotionDetector.js:24-29 | the inner keyword loop counts the category's hits |
| EmotionDetector.NormalizeScores | backend/utils/emotionDetector.js:37-40 | the normalisation loop replaces each score by `Math.round(score / total * 100)`, keeping keys and order |
| EmotionDetector.NormalizeAt | backend/utils/emotionDetector.js:39 | entry `i` of the normalised table is `(name, Round(100 * score, total))` |
| EmotionDetector.DetectEmotions | backend/utils/emotionDetector.js:18-43 | the method returns the percentages of the detected categories (the specification function `EmotionScores`) |
| EmotionDetector.DetectedCategories | backend/utils/emotionDetector.js:18-43 | the result has distinct category keys, and a category is present iff one of its keywords occurs in the lower-cased text |
| EmotionDetector.DetectedPercentages | backend/utils/emotionDetector.js:36-40 | every percentage is in 0..100; a lone category gets 100; the percentages sum to 100 within half a point per category |
| EmotionDetector.ShareInRange | backend/utils/emotionDetector.js:39 | a positive score divided by a total that includes it rounds to a value in 0..100 |
| EmotionDetector.LoneShare | backend/utils/emotionDetector.js:39 | a single detected category normalises to 100 |
| EmotionDetector.SharesSum | backend/utils/emotionDetector.js:37-40 | the rounded shares differ from 100 by at most half a point per category |
| EmotionDetector.NormalizeSum | backend/utils/emotionDetector.js:39 | each rounding adds at most half a unit of error to the sum of the normalised scores |
| EmotionDetector.ValueBelowTotal | backend/utils/emotionDetector.js:32 | each positive score is at most the total score |
| EmotionDetector.TotalPositive | backend/utils/emotionDetector.js:32 | with positive scores the total is zero iff the table is empty, which is when `totalScore \|\| 1` takes effect |
| EmotionDetector.OneWordTwoCategories | backend/utils/emotionDetector.js:5-6 | "stressed" contains the anxiety keyword "stress", so one word raises both anxiety and stress |
| EmotionDetector.RawScoreOfCategory | backend/utils/emotionDetector.js:24-31 | a category's raw score is the size of the set of its keywords found, bounded by the list length |
| EmotionDetector.NoHitsNoEmotions | backend/utils/emotionDetector.js:30-42 | when no keyword occurs the result is the empty object |
| EmotionDetector.EmptyTextNoEmotions | backend/utils/emotionDetector.js:18-43 | the empty text yields the empty object |
| EmotionDetector.Occurrences | backend/utils/emotionDetector.js:55 | the count of non-overlapping global regex matches of a word fits in the text's length |
| EmotionDetector.CalculateSentimentScore | backend/utils/emotionDetector.js:45-67 | the method computes the score from the `p` positive and `n` negative match counts: 0 when nothing matched, otherwise `(p - n) / (p + n) * 100` rounded to the nearest integer with halves rounded up, computed exactly, not in double precision (see "## Left out"); the result is in -100..100 |
| EmotionDetector.CountLexicon | backend/utils/emotionDetector.js:54-60 | the counting loop sums the match counts of every lexicon word |
| EmotionDetector.SentimentSigns | backend/utils/emotionDetector.js:62-66 | the score is in -100..100; it is 0 with no matches or a tie; it is 100 or -100 when only one side matched; its sign agrees with the majority whenever it is non-zero, and it is non-zero for a majority of either side with at most 200 matches in total |
| EmotionDetector.ExactQuotientRounding | backend/utils/emotionDetector.js:65-66 | the model rounds the exact ratio: 29 against 51 matches give -27 and 63 against 17 give 58, the two count pairs up to 100 per side where double-precision rounding ends elsewhere |
| EmotionDetector.NarrowMajorityRoundsToZero | backend/utils/emotionDetector.js:65-66 | 101 positive against 100 negative matches rounds to 0 (and the mirror case too) |
| EmotionDetector.EmptyTextNeutral | backend/utils/emotionDetector.js:63 | the empty text scores 0 |
| EmotionDetector.MatchesInsideWords | backend/utils/emotionDetector.js:55 | the regex has no word boundaries: "sad" matches inside "sadness" |
| EmotionDetector.GratefulCountsTwice | backend/utils/emotionDetector.js:48 | "grateful" is listed twice in the positive lexicon, so each occurrence counts two |
| EmotionDetector.WordRun | backend/utils/emotionDetector.js:72 | a word token is a maximal run of `\w` characters |
| EmotionDetector.Tokens | backend/utils/emotionDetector.js:72 | every token is a non-empty run of word characters |
| EmotionDetector.Candidates | backend/utils/emotionDetector.js:74 | the filter keeps only words longer than four characters that are not common words, and keeps every such word as often as it occurs |
| EmotionDetector.TallyKeys | backend/utils/emotionDetector.js:75-78 | the tally's keys are the candidate words in first-appearance order, each once |
| EmotionDetector.TallyCounts | backend/utils/emotionDetector.js:75-78 | the tally maps each word to its number of occurrences |
| EmotionDetector.KeywordsAreRankedKeys | backend/utils/emotionDetector.js:80-83 | the keywords are the first `min(10, n)` keys of the frequency-sorted tally |
| EmotionDetector.KeywordsDistinct | backend/utils/emotionDetector.js:80-83 | at most ten keywords, none repeated |
| EmotionDetector.KeywordsFiltered | backend/utils/emotionDetector.js:72-74 | every keyword is a token of the lower-cased text, longer than four characters and not a common word |
| EmotionDetector.KeywordsByFrequency | backend/utils/emotionDetector.js:75-83 | keywords appear in non-increasing order of frequency |
| EmotionDetector.RankedEntries | backend/utils/emotionDetector.js:75-81 | the ranked tally has distinct keys, is sorted, and pairs each word with its frequency |
| EmotionDetector.KeywordTiesKeepFirstAppearance | backend/utils/emotionDetector.js:75-81 | words of equal frequency keep their first-appearance order |
| BurnoutCalculator.TrendPattern | backend/utils/burnoutCalculator.js:54-66 | fewer than three entries give 'insufficient'; otherwise, with `avg` the mean of the two entries before the last: 'declining' iff the latest is more than 15 below `avg`, 'stagnant' iff not declining and within 10 of `avg`, 'improving' otherwise |
| BurnoutCalculator.TrendUsesLastThree | backend/utils/burnoutCalculator.js:57 | only the last three entries decide the trend |
| BurnoutCalculator.FactorSumRange | backend/utils/burnoutCalculator.js:4-51 | the score is between 0 and 89, and 89 is reached, so the cap at 100 never applies |
| BurnoutCalculator.FactorSumMonotone | backend/utils/burnoutCalculator.js:7-37 | a lower sentiment, higher stress or higher fatigue never lowers the score |
| BurnoutCalculator.CalculateBurnoutScore | backend/utils/burnoutCalculator.js:4-52 | the method adds the four weighted factors (sentiment 40, stress plus anxiety 30, fatigue 20, trend 10) and returns the sum, which lies in 0..89 |
| BurnoutCalculator.ThresholdsReached | backend/utils/burnoutCalculator.js:68-72 | the number of thresholds 25, 50, 75 reached is at most three |
| BurnoutCalculator.RiskLevelByThresholds | backend/utils/burnoutCalculator.js:68-73 | the risk level is Low, Moderate, High or Critical by the number of thresholds reached, and is monotone in the score |
| BurnoutCalculator.RiskLevelEdges | backend/utils/burnoutCalculator.js:69-72 | 24/25, 49/50 and 74/75 are the level boundaries |
| BurnoutCalculator.TriggeredMembers | backend/utils/burnoutCalculator.js:84-93 | a label is pushed iff its condition holds; nothing else is pushed; nothing is pushed iff no condition holds |
| BurnoutCalculator.PushConcerns | backend/utils/burnoutCalculator.js:84-88 | the five concern checks push exactly the triggered labels, in source order |
| BurnoutCalculator.PushStrengths | backend/utils/burnoutCalculator.js:91-93 | the three strength checks push exactly the triggered labels, in source order |
| BurnoutCalculator.GenerateRiskAnalysis | backend/utils/burnoutCalculator.js:75-100 | the analysis keeps the rounded score and its risk level; its concerns are the triggered ones, or only 'Monitor overall wellbeing' when none is; its strengths are the triggered ones |
| BurnoutCalculator.ConcernsNeverEmpty | backend/utils/burnoutCalculator.js:95-97 | the concern list is never empty; it is the default exactly when no concern fires; each concern is listed iff its condition holds |
| BurnoutCalculator.StrengthsFacts | backend/utils/burnoutCalculator.js:91-93 | an absent anger score counts as below 10 and yields 'Good emotional regulation'; a negative entry with anger 40 has no strengths |
| AiRecommendations.EmotionIndex | backend/utils/aiRecommendations.js:4-39 | the index of an emotion among the five template keys, or -1 iff it has no templates |
| AiRecommendations.TemplatesFor | backend/utils/aiRecommendations.js:68-69 | an emotion has a non-empty template list iff it is anxiety, stress, sadness, fatigue or anger |
| AiRecommendations.TemplateListsDisjoint | backend/utils/aiRecommendations.js:4-39 | no strategy text is shared between two emotions' template lists |
| AiRecommendations.TemplatesDisjoint | backend/utils/aiRecommendations.js:4-39 | a strategy text identifies its emotion |
| AiRecommendations.Above | backend/utils/aiRecommendations.js:63 | the filter keeps only entries scoring above the threshold |
| AiRecommendations.AboveKeys | backend/utils/aiRecommendations.js:62-63 | the filtered keys are exactly the keys whose score is above the threshold |
| AiRecommendations.HighEmotionsSpec | backend/utils/aiRecommendations.js:62-65 | the high emotions are distinct, are exactly the emotions scoring above 25, and come in non-increasing order of score |
| AiRecommendations.Served | backend/utils/aiRecommendations.js:68 | only high emotions that have templates are served |
| AiRecommendations.ServedMembers | backend/utils/aiRecommendations.js:67-68 | an emotion is served iff it is high and has templates |
| AiRecommendations.DrawnServed | backend/utils/aiRecommendations.js:67-72 | one strategy is drawn per served emotion, from that emotion's own list |
| AiRecommendations.DrawnDistinct | backend/utils/aiRecommendations.js:67-72 | the drawn strategies are distinct, since the lists are disjoint and each emotion occurs once |
| AiRecommendations.ImmediateSpec | backend/utils/aiRecommendations.js:62-96 | deduplicating the immediate list never removes anything; entry `k` is a template of the `k`-th served emotion, which scores above 25; the served emotions are exactly the high emotions that have templates, in non-increasing order of score |
| AiRecommendations.ServedKeepsOrder | backend/utils/aiRecommendations.js:64-72 | skipping the high emotions that have no templates keeps the descending score order of the sort |
| AiRecommendations.HappinessServesNothing | backend/utils/aiRecommendations.js:4-39 | happiness has no templates, so it never yields an immediate action |
| AiRecommendations.GeneratePersonalizedRecommendations | backend/utils/aiRecommendations.js:54-99 | the immediate list is the deduplicated draws for the high emotions; the daily list has the three high-burnout practices iff the score exceeds 50, else the two others; the long-term list has two strategies, picked by the two draws |
| AiRecommendations.PushImmediate | backend/utils/aiRecommendations.js:67-72 | the `forEach` loop pushes, for each high emotion in order, one strategy drawn from its own list, skipping emotions without templates |
| AiRecommendations.LongtermMayRepeat | backend/utils/aiRecommendations.js:89-96 | the long-term list is not deduplicated, so equal draws give a repeated strategy |
| AiRecommendations.Dominant | backend/utils/aiRecommendations.js:104-105 | the dominant emotion is an entry of maximal score |
| AiRecommendations.DominantIsFirst | backend/utils/aiRecommendations.js:104-105 | the dominant emotion is the first entry holding the maximum |
| AiRecommendations.SortHeadIsDominant | backend/utils/aiRecommendations.js:104-105 | the head of the descending sort is the dominant emotion |
| AiRecommendations.GeneratePsychologicalSummary | backend/utils/aiRecommendations.js:101-129 | the method builds the summary string from its four parts in order |
| AiRecommendations.SummaryOpening | backend/utils/aiRecommendations.js:107-110 | the summary opens with the dominant-emotion sentence iff the emotion data is non-empty |
| AiRecommendations.SentimentBands | backend/utils/aiRecommendations.js:112-120 | exactly one of the four mood sentences is used: above 20, 1..20, -19..0, or at most -20 |
| AiRecommendations.SentimentPartsFromPresence | backend/utils/aiRecommendations.js:109-119 | no mood sentence can be mistaken for the emotion sentence |
| AiRecommendations.SummaryEndsWithClosing | backend/utils/aiRecommendations.js:126 | every summary ends with the closing encouragement |
| AiRecommendations.KeywordSentenceFirstThree | backend/utils/aiRecommendations.js:122-124 | the themes sentence is absent iff there are no keywords; it lists the one keyword, the two keywords, or the first three, joined by ", " |
| AiRecommendations.JoinThree | backend/utils/aiRecommendations.js:123 | `join(', ')` of three parts puts the separator between them |
| AnalysisRoutes.ListingSummaryShape | backend/routes/analysis.js:19 | the listing summary is the first `min(100, n)` characters followed by "...", counting characters as Unicode code points (see "## Left out") |
| AnalysisRoutes.ListEntries | backend/routes/analysis.js:13-20 | one listing per entry, copying id, date, emotions and scores and adding the summary |
| AnalysisRoutes.SumBounds | backend/routes/analysis.js:47-48 | a sum of `n` values within `[lo, hi]` lies within `[n*lo, n*hi]` |
| AnalysisRoutes.AverageBounds | backend/routes/analysis.js:47-80 | the rounded average lies within the bounds of the values |
| AnalysisRoutes.AverageOfConstant | backend/routes/analysis.js:47-80 | the average of equal values is that value |
| AnalysisRoutes.TableSumOfDistinct | backend/routes/analysis.js:53 | walking a map with distinct keys yields each key's value once |
| AnalysisRoutes.AddAllSpec | backend/routes/analysis.js:53-55 | adding an entry's emotions into the running totals adds each key's score and introduces only new keys |
| AnalysisRoutes.AccumulatedSpec | backend/routes/analysis.js:51-56 | the totals have distinct keys, each key's total is its sum over all entries, and a key is present iff some entry has it |
| AnalysisRoutes.TotalEmotions | backend/routes/analysis.js:51-56 | the nested accumulation loops compute those totals |
| AnalysisRoutes.Averaged | backend/routes/analysis.js:59-61 | the normalisation keeps the keys in order |
| AnalysisRoutes.AveragedGet | backend/routes/analysis.js:60 | each total becomes `Math.round(total / number of entries)` |
| AnalysisRoutes.EmotionDistribution | backend/routes/analysis.js:50-61 | the method computes the totals, then divides each in place by the number of entries |
| AnalysisRoutes.DistributionSpec | backend/routes/analysis.js:50-61 | the distribution has distinct keys, holds exactly the emotions seen in some entry, and maps each to its rounded sum divided by the entry count |
| AnalysisRoutes.DivisorIsEntryCount | backend/routes/analysis.js:60 | the divisor counts all entries, including those without the emotion: stress 40 in one of two entries gives 20 |
| AnalysisRoutes.RecentWindow | backend/routes/analysis.js:63-74 | the trend and weekly lists hold the newest `min(7, n)` entries, oldest first |
| AnalysisRoutes.Trends | backend/routes/analysis.js:99-103 | one trend row per entry, in order, with the ISO date and both scores |
| AnalysisRoutes.Dashboard | backend/routes/analysis.js:33-85 | no entries give the all-zero dashboard; otherwise the method returns the entry count, both rounded averages, the emotion distribution and the two seven-entry windows |
| JournalRoutes.TrimStart | backend/routes/journal.js:17 | leading whitespace removed: a suffix that starts with a non-space character, preceded only by spaces |
| JournalRoutes.TrimEnd | backend/routes/journal.js:17 | trailing whitespace removed: a prefix that ends with a non-space character, followed only by spaces |
| JournalRoutes.TrimEmptyIffBlank | backend/routes/journal.js:17 | `trim()` is empty iff the content is all whitespace |
| JournalRoutes.DigitRun | backend/routes/journal.js:40 | `parseInt` reads the longest prefix of digits in the radix |
| JournalRoutes.ParseIntOfNatToString | backend/routes/journal.js:40-53 | parsing the decimal form of a natural number gives that number back |
| JournalRoutes.DigitsOfNatToString | backend/routes/journal.js:40 | decimal digits evaluate back to the number they print |
| JournalRoutes.ParseIntNaN | backend/routes/journal.js:40 | every text without a decimal digit parses to NaN (None), which matches no id |
| JournalRoutes.ParseIntStopsAtNonDigit | backend/routes/journal.js:40 | `parseInt(" 12abc")` skips leading space and stops at the first non-digit: 12 |
| JournalRoutes.ParseIntHex | backend/routes/journal.js:40 | a "0x" prefix switches to base 16: "0x1A" is 26 |
| JournalRoutes.ParseIntNegative | backend/routes/journal.js:40 | a leading minus sign negates: "-7" is -7 |
| JournalRoutes.FirstWithId | backend/routes/journal.js:40-53 | `find`/`findIndex` yield the first journal with the id, or none when no journal has it |
| JournalRoutes.JournalStore.constructor | backend/routes/journal.js:5 | the table starts empty |
| JournalRoutes.JournalStore.Create | backend/routes/journal.js:13-35 | missing or blank content is rejected with 'Content is required' and the table is unchanged; otherwise the new journal is appended with id `length + 1`, the default title when the title is missing or empty, the current time as default date when none is given, and the current time as creation time; sequential ids are preserved |
| JournalRoutes.JournalStore.Get | backend/routes/journal.js:38-48 | returns the first journal whose id equals the parsed parameter, else 'Journal not found' |
| JournalRoutes.JournalStore.Delete | backend/routes/journal.js:51-62 | succeeds with 'Journal deleted' iff a journal with the parsed id exists, and the table loses exactly that journal; otherwise 'Journal not found' and the table is unchanged |
| JournalRoutes.JournalStore.FindIndex | backend/routes/journal.js:53 | the search loop returns the first matching index, or -1 |
| JournalRoutes.CreateKeepsSequentialIds | backend/routes/journal.js:21-30 | appending to a table whose ids are 1..n gives ids 1..n+1; the title defaults to "Journal Entry n+1" |
| JournalRoutes.SequentialLookup | backend/routes/journal.js:22-40 | with ids 1..n, exactly the ids 1..n are found, id `k` at position `k-1` |
| JournalRoutes.RemovedSpec | backend/routes/journal.js:53-57 | `splice(index, 1)` removes exactly the found journal and shifts the rest down; the table is unchanged if none is found |
| JournalRoutes.IdReissuedAfterDelete | backend/routes/journal.js:22-57 | ids derive from the table length, so deleting journal 1 of 2 and then creating one reissues id 2, and a lookup of id 2 then finds the older journal |

## Left out

- Scores are integers throughout. Every weight product in the burnout calculator (for example 40 × 0.9 = 36) is an integer, so the burnout score is exact. The dashboard averages and the emotion percentages use `Common.Round` on exact integers, not floating-point division. For the counts that can occur, this gives the same results as the double-precision arithmetic.
- `toLowerCase` is modelled on ASCII letters only, and `trim`'s whitespace is the ASCII space, tab, line feed, vertical tab, form feed and carriage return. Unicode case mapping and Unicode whitespace are not modelled.
- The `\w` and `\b` of the keyword regex are modelled on ASCII only.
- Object keys are kept in insertion order. JavaScript lists integer-like keys first, and such keys cannot come from the emotion category names. The tally of `extractKeywords` could receive all-digit words: that reordering is not modelled.
- Prototype keys are not modelled: `acc[word] || 0` for a word such as "constructor" reads an inherited property in JavaScript.
- `Math.random()` is not modelled. Each call becomes a natural number the caller supplies, reduced modulo the list length. This is the index `Math.floor(Math.random() * length)` would give.
- `new Date()`, `toLocaleDateString` and `toISOString().split('T')[0]` are not modelled. The current time is a parameter and the two date formatters are functions passed in.
- The MongoDB queries in the analysis routes (`JournalEntry.find(...).sort({ date: -1 })`) are not modelled. The entries arrive already sorted as the route receives them. The Mongoose schema in backend/models/JournalEntry.js is not part of this model.
- Express request and response handling, the HTTP status codes and the `catch` blocks that answer 500 are not modelled. The journal routes return a `Result` whose error string is the route's message.
- GET of all journals (backend/routes/journal.js:8-10) returns the table as stored; it has no method of its own.
- A non-string `content` (a number, an object) in a create request is not modelled. `content` is an optional string, and JavaScript truthiness is `Some` and non-empty.
- `parseInt` is modelled on unbounded integers. Precision loss above 2^53 and the `Infinity` of very long digit strings are not modelled.
- A sentiment label (positive, neutral, negative) is described for this system, but no function in the code computes one, so none is modelled.
- EmotionDetector.CalculateSentimentScore: the ratio `(p - n) / (p + n) * 100` is rounded exactly, while JavaScript rounds a double-precision value. The two differ for 29 positive against 51 negative matches: the double is -27.500000000000004, so JavaScript gives -28 where the model gives -27. They also differ for 63 against 17: the double is 57.49999999999999, so JavaScript gives 57 where the model gives 58 (EmotionDetector.ExactQuotientRounding). These are the only such pairs with at most 100 matches per side.
- AnalysisRoutes.ListingSummaryShape: `substring(0, 100)` counts UTF-16 code units, but the model counts Unicode code points. A text containing characters outside the Basic Multilingual Plane (emoji, say) therefore gets a longer summary in the model. JavaScript can also cut such a character in half at the 100th unit, and the model does not model this.
- EmotionDetector.SentimentSigns: the converse direction ("a majority of one side gives a score of that sign") is proved only up to 200 matches in total. Beyond that it does not hold: EmotionDetector.NarrowMajorityRoundsToZero shows 101 against 100 rounds to 0.
- BurnoutCalculator.GenerateRiskAnalysis: `Math.round(burnoutScore)` is the identity on the integer scores modelled here.
