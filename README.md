# Aitextdetect scoring engine in Dafny

Aitextdetect is a heuristic detector of machine-written text. It cleans a text with a regular expression and tokenises it into sentences and words. From these it computes a set of statistics:

- lexical diversity and MATTR (moving-average type-token ratio);
- sentence-length variance;
- word-frequency burstiness;
- a bigram entropy "perplexity";
- stopword, punctuation and top-word ratios;
- Flesch–Kincaid readability (from a syllable count that is not itself reported).

Each of `test4.py` and `test3.py` compares seven features against literal thresholds. Every criterion that holds adds one point, and the score out of seven decides the "AI" / "Human" label. The thresholded features differ per variant:

- `test4.py` thresholds lexical diversity, sentence-length variance, stopword ratio, burstiness, perplexity, MATTR and top-word ratio. It also reports `word_count`, `unique_words`, `avg_word_length`, `sentence_count`, `avg_sentence_length`, `flesch_kincaid` and `technical_terms`, which feed no criterion. The content categories are reported beside the features and feed none either.
- `test3.py` thresholds the same features with the punctuation ratio in place of the top-word ratio. It also reports `ttr`, `avg_sentence_length` and `top_word_ratio`, which feed no criterion.

Word count and Flesch–Kincaid are features of `test4.py` only. `TEST2.py` scores its own seven criteria: four on its text statistics, plus paragraph length, AI phrases and sentence-length consistency. The repository contains three variants of this scorer plus a separate analyser and a document generator. This project models all five.

- `test4.py` (`AIDetector.detect`): thirteen numeric features plus a set of technical terms found by part-of-speech patterns, seven criteria, and "AI" when `score / 7 > 0.6`, i.e. when five or more criteria hold. The report also carries up to two content categories found by keyword matching.
- `test3.py` (`AIDetector.detect`): ten numeric features, and the same criteria with a punctuation-ratio criterion (`0.05 <= ratio <= 0.15`) in place of the top-word criterion. No categories or terms.
- `TEST2.py` (`is_ai_generated`): simpler text statistics, paragraph / phrase / sentence-consistency criteria, and "AI" when `score >= 4`.
- `app/text_analyzer.py`: bigram perplexity (infinite when there is no bigram), sentence burstiness `var / mean²`, and a clamped linear blend of the two into an "AI proportion".
- `app/ai_generator.py`: a template document for a topic, with one inner sentence dropped.

The model is organised by module:

| module | file | contents |
|---|---|---|
| `Wrappers` | `wrappers.dfy` | `Option` |
| `Strings` | `strings.dfy` | `str.lower`, `in`, `find`, `split(sep)`, `join`, `split()`, `strip()` |
| `Cleaning` | `cleaning.dfy` | the two `re.sub` cleanings and what they leave |
| `Scoring` | `scoring.dfy` | counting criteria, the `"k/7"` text, the label |
| `Tally` | `tally.dfy` | `set`, `collections.Counter`, `most_common`, stable sorting |
| `Stats` | `stats.dfy` | floating-point primitives as parameters, sum, mean, population variance |
| `Nlp` | `nlp.dfy` | the NLTK tokenisers, tagger and stopword list as parameters |
| `Metrics` | `metrics.dfy` | the feature functions shared by `test3.py` and `test4.py` |
| `Readability` | `readability.dfy` | `count_syllables` and Flesch–Kincaid |
| `Content` | `content.dfy` | `classify_content` and `extract_technical_terms` |
| `Detector4`, `Detector3`, `Detector2` | `detector4.dfy`, `detector3.dfy`, `detector2.dfy` | the three scorers |
| `TextAnalyzer` | `text_analyzer.dfy` | `app/text_analyzer.py` |
| `AiGenerator` | `ai_generator.dfy` | `app/ai_generator.py` |

The thresholds and outcomes follow the code:

- **Decision thresholds.** `test3.py` and `test4.py` use `confidence > 0.6`; `TEST2.py` uses `score >= 4` (4/7 ≈ 0.571). The model uses each variant's rule, and proves the first equivalent to "five or more criteria".
- **Perplexity n-gram counts.** The detectors' perplexity collects `len(words) - n` n-grams, one fewer than there are. The model keeps that count and states the relation to the full n-gram list as a lemma (`Metrics.PerplexityNGramsDropLast`).
- **TEST2.py sentence count.** `TEST2.py` deletes every `.` before counting sentences, so its `sentence_count` is always 1. The model keeps that too (`Detector2.SingleSentence`).

## Model

| member | source | states |
|---|---|---|
| Strings.Lower | test4.py:109 | lower-casing keeps the length, one character for one |
| Strings.Contains | TEST2.py:93 | `part in text`: some position of `text` starts with `part`; `Strings.IndexOf` finds the first such position |
| Strings.Join | app/ai_generator.py:93 | `sep.join(pieces)`; `Strings.JoinSplit` and `Strings.SplitJoin` relate it to `split` |
| Strings.IndexOf | TEST2.py:81 | the position found holds the separator, no earlier position does, and there is none exactly when the separator does not occur |
| Strings.Split | TEST2.py:81 | splitting always yields at least one piece |
| Strings.JoinSplit | app/ai_generator.py:89-93 | joining the pieces of a split with the same separator rebuilds the string |
| Strings.SplitWithoutSeparator | TEST2.py:81-82 | a text without a blank line is a single paragraph |
| Strings.SplitPiecesLackSeparator | app/ai_generator.py:89 | no piece of a split contains the separator |
| Strings.SplitJoin | app/ai_generator.py:89-93 | for a separator with no self-overlap such as `". "`, splitting a join of separator-free pieces gives the pieces back |
| Strings.WordRun | TEST2.py:15 | a word runs up to, and stops at, the first whitespace character |
| Strings.SplitWhitespace | TEST2.py:15 | every word of `str.split()` is non-empty and contains no whitespace |
| Strings.Runs | TEST2.py:15 | the number of positions where a non-whitespace character follows whitespace or the start, counted by an independent left-to-right scan |
| Strings.RunsInsideWord | TEST2.py:15 | no run starts inside a word |
| Strings.SplitWhitespaceCountsRuns | TEST2.py:15 | `len(s.split())` is the number of maximal non-whitespace runs of `s` |
| Strings.SplitWhitespaceEmpty | TEST2.py:15-18 | `str.split()` is empty exactly when the text is all whitespace |
| Strings.TrimStart | TEST2.py:98 | `lstrip` is empty exactly when the string is blank, otherwise starts with a non-space, and is no longer than the string |
| Strings.TrimStartSuffix | TEST2.py:98 | `lstrip` leaves a suffix of the string and drops only whitespace |
| Strings.TrimEnd | TEST2.py:98 | `rstrip` is empty exactly when the string is blank, is a prefix of the string, and otherwise ends with a non-space |
| Strings.TrimEndDropsSpace | TEST2.py:98 | `rstrip` drops only whitespace |
| Strings.Strip | TEST2.py:98 | a stripped piece is empty exactly when the piece is blank, and otherwise starts and ends with a non-space |
| Strings.TrimmedSlice | TEST2.py:98 | trimming the end of a suffix leaves a contiguous slice of the original, followed only by the trimmed characters |
| Strings.StripSlice | TEST2.py:98 | `s.strip()` is the contiguous slice of `s` after its leading whitespace, with only whitespace before and after it |
| Cleaning.Clean | test4.py:30 | the cleaned text is no longer than the input and holds only allowed characters |
| Cleaning.CleanCounts | test4.py:30 | cleaning keeps every occurrence of an allowed character and removes every occurrence of any other |
| Cleaning.CleanIsSubsequence | test4.py:30 | cleaning only deletes characters: the result is a subsequence of the input |
| Cleaning.CleanKeepsClean | test4.py:30 | a text made only of allowed characters is unchanged |
| Cleaning.CleanIdempotent | test4.py:30 | cleaning twice is cleaning once |
| Cleaning.CleanedPunctuation | test3.py:33 | after cleaning, the only ASCII punctuation left is `.`, `?`, `!` and `_` |
| Cleaning.CleanedHasNoPeriod | TEST2.py:14 | `TEST2.py`'s cleaning leaves no `.` |
| Scoring.CountTrue | test4.py:203-232 | the score never exceeds the number of criteria |
| Scoring.FlipAddsOne | test4.py:206-232 | a criterion that starts to hold raises the score by exactly one |
| Scoring.CountSeven | test4.py:203-232 | the score of seven criteria is the sum of their points |
| Scoring.ConfidenceAboveSixTenths | test4.py:234-235 | `score / 7 > 0.6` exactly when the score is 5 or more |
| Scoring.Decimal | test4.py:247 | `str(n)` is a non-empty string of digits |
| Scoring.DecimalRoundTrip | test4.py:247 | `int(str(n)) == n` |
| Scoring.ScoreText | test4.py:247 | the `f"{score}/{max_score}"` text; `Scoring.ScoreTextRoundTrip` reads it back |
| Scoring.Label | test4.py:244 | `"AI" if ai_generated else "Human"`; the `Assessment` rows state when each is given |
| Scoring.ScoreTextRoundTrip | test4.py:247 | the `"score/max"` text reads back into the score and the maximum |
| Tally.Distinct | test4.py:44 | `set(words)`: the distinct elements, between 1 and `len(words)` of them for a non-empty list, as `Tally.DistinctBounds` proves |
| Tally.DistinctBounds | test4.py:44 | a non-empty list has between 1 and `len(words)` distinct elements |
| Tally.KeysCard | test4.py:142 | a counter with distinct keys has one entry per key |
| Tally.Bump | test4.py:61 | counting one more element raises the total by one |
| Tally.BumpKeys | test4.py:61 | counting an element adds it to the keys and nothing else |
| Tally.BumpInvariant | test4.py:61 | counting keeps keys distinct and counts positive |
| Tally.BumpLookup | test4.py:61 | counting `x` raises the count of `x` by one and leaves every other count alone |
| Tally.Lookup | app/text_analyzer.py:18 | `counter[x]`: 0 for an absent key; on `Counter(s)` it is the multiplicity of `x` in `s`, as `Tally.CounterLookup` proves |
| Tally.Counter | test4.py:61 | `Counter(words)` has distinct keys and positive counts, its keys are the distinct words, and its counts sum to `len(words)` |
| Tally.CounterLookup | test4.py:61 | the count of each element is its multiplicity in the input |
| Tally.FirstMaxIndex | test4.py:62 | the index chosen holds a maximal count, and every earlier entry's count is strictly smaller |
| Tally.TopK | test4.py:62 | `most_common(k)` has `min(k, len)` entries, and keeps the most common entries (`Tally.TopKDominates`) in non-increasing order (`Tally.TopKSorted`) |
| Tally.TopKTotal | test4.py:62 | the top-k counts sum to at most the total, to the total when `k` covers every entry, and to a positive value when there is one |
| Tally.TopKMembers | test4.py:62 | every top-k entry is an entry of the counter |
| Tally.TopKSorted | test4.py:62 | the top-k entries are in non-increasing order of count |
| Tally.TopTwoIsStable | test4.py:119-120 | the two entries picked first are ahead of every other, with ties broken by first occurrence, as Python's stable sort does |
| Tally.OccurrencesMultiset | test4.py:62 | the recursive occurrence count of `x` in `s` is `multiset(s)[x]` |
| Tally.TopKOccurrences | test4.py:62 | `most_common(k)` keeps no entry more often than it occurs in the counter |
| Tally.TopKDominatesAt | test4.py:62 | an entry that `most_common(k)` keeps fewer times than it occurs counts no more than any entry it keeps |
| Tally.TopKDominates | test4.py:62 | `most_common(k)` is a sub-multiset of the counter's entries, and every entry in the difference counts no more than every entry kept: the top `k` are the most common |
| Stats.PopVariance | test4.py:55 | `np.var` is non-negative |
| Stats.Mean | test4.py:143 | `np.mean`: the sum over the length; `Stats.MeanBounds` bounds it by any bounds of the elements, `Stats.ConstantSeries` gives a constant series its constant |
| Stats.ConstantSeries | app/text_analyzer.py:35-36 | a constant series has that constant as its mean and zero variance |
| Stats.MeanBounds | test4.py:143 | the mean lies between any lower and upper bound of the elements |
| Stats.QuotientUnique | app/text_analyzer.py:38 | the quotient is the only number whose product with a positive divisor gives back the dividend |
| Stats.OverSquare | app/text_analyzer.py:38 | dividing by a positive `m` twice gives exactly the `b` with `b·m·m == v`, i.e. `v / m ** 2` |
| Stats.RootRatioBelow | TEST2.py:105-108 | `sqrt(v) / m < b` exactly when `v < (b·m)²` |
| Metrics.CleanText | test4.py:30 | `re.sub(r'[^\w\s\.\?\!]', '', text)`: `Cleaning.Clean` with word, space and `.?!` characters allowed; `Cleaning.CleanCounts` states exactly which characters survive |
| Metrics.DetectorWords | test4.py:34 | the lower-cased alphabetic tokens of the cleaned text; `Metrics.AlphabeticWords` bounds them by the tokens and keeps only non-empty words |
| Metrics.AlphabeticWords | test4.py:34 | filtering to alphabetic tokens keeps at most the tokens and only non-empty words |
| Metrics.TypeTokenRatio | test4.py:48 | lexical diversity lies in `[1/len(words), 1]` |
| Metrics.Proportion | test4.py:48 | a count over a larger total lies in `[0, 1]`, is at least `1/n` when positive, and is 1 when the two are equal |
| Metrics.WindowRatios | test4.py:129-132 | there are `len(words) - 50 + 1` windows, and each ratio lies in `[1/50, 1]` |
| Metrics.Mattr | test4.py:124-134 | MATTR lies in `(0, 1]` |
| Metrics.CalculateMattr | test4.py:124-134 | the loop returns the plain type-token ratio for a short text and otherwise the mean of the window ratios |
| Metrics.PerplexityNGrams | test4.py:155-157 | exactly `len(words) - n` n-grams are collected |
| Metrics.AllNGrams | app/text_analyzer.py:11 | `zip` over shifted lists yields `len(tokens) - n + 1` n-grams, the i-th being `tokens[i:i+n]` |
| Metrics.PerplexityNGramsDropLast | test4.py:155-157 | the detectors' n-grams are all n-grams except the last |
| Metrics.CollectNGrams | test4.py:155-157 | the loop collects the n-gram list |
| Metrics.Entropy | test4.py:162-165 | `-Σ p·log2(p + 1e-10)` over the counter's values in order, `p = count / total`; `Metrics.EntropyOf` is the loop |
| Metrics.PseudoPerplexity | test4.py:150-167 | 0 below `n + 1` words, otherwise `2 ** entropy`; `Metrics.SimplePerplexity` is the method |
| Metrics.EntropyOf | test4.py:162-165 | the loop accumulates the entropy sum over the counter's values |
| Metrics.SimplePerplexity | test4.py:150-167 | the result is 0 below `n + 1` words and otherwise `2 ** entropy` of the n-gram counts |
| Metrics.Frequencies | test4.py:142 | the counter's values as non-negative numbers, one per distinct word |
| Metrics.DispersionBounds | test4.py:148 | `(std - mean) / (std + mean)` lies in `[-1, 1)` |
| Metrics.FrequencyBurstiness | test4.py:136-148 | burstiness is 0 below two words and always lies in `[-1, 1)` |
| Metrics.TopWordCount | test4.py:62 | the ten most common words account for between 1 and `len(words)` words, and for all of them when there are at most ten distinct words |
| Metrics.TopWordRatio | test4.py:62 | the top-word ratio lies in `(0, 1]`, and is 1 with at most ten distinct words |
| Metrics.MemberCount | test4.py:65 | the stopword count is at most the word count, 0 when no word is a stopword, and the word count when all are |
| Metrics.StopwordRatio | test4.py:65-66 | the stopword ratio lies in `[0, 1]` |
| Metrics.TotalLength | test4.py:45 | non-empty words have total length at least their number |
| Metrics.AvgWordLength | test4.py:45 | the average length of non-empty words is at least 1 |
| Metrics.SentenceLengths | test4.py:53 | one length per sentence |
| Metrics.SentenceLengthVariance | test4.py:55 | the variance is non-negative, and 0 with at most one sentence |
| Readability.VowelGroups | test4.py:184-188 | a word has at most as many vowel groups as letters |
| Readability.EndsInVowelHasGroup | test4.py:186-188 | a word ending in a vowel has at least one vowel group |
| Readability.FinalEHasGroup | test4.py:189-190 | a word ending in `e` has a vowel group, so the final `e` subtraction never leaves a negative count |
| Readability.Syllables | test4.py:179-193 | the syllable count of a non-empty word lies between 1 and its length |
| Readability.CountVowelGroups | test4.py:183-188 | the loop counts the vowel groups of a non-empty word |
| Readability.CountSyllables | test4.py:179-193 | the loop fails on the empty word (`word[0]` raises) and otherwise returns the syllable count |
| Readability.SyllablesIgnoreCase | test4.py:181 | a word and its lower-case form have the same syllable count |
| Readability.SyllableTotal | test4.py:171 | the syllable total is at least the number of tokens |
| Readability.FleschKincaid | test4.py:169-177 | the score fails on an empty token, is 0 without words or sentences, and never exceeds 206.835 |
| Readability.FleschKincaidCeiling | test4.py:177 | with words and sentences the score is at most 206.835 - 84.6 |
| Content.KeywordScore | test4.py:113-116 | a category scores at most its number of keywords |
| Content.KeywordScoreExtremes | test4.py:113-116 | a category scores full marks exactly when every keyword occurs, and 0 exactly when none does |
| Content.KeywordScores | test4.py:101-116 | the five categories are scored in declaration order, each at most 5 |
| Content.PositiveNames | test4.py:120 | the filtered top categories are no more than those considered |
| Content.Classification | test4.py:119-122 | one or two categories come back |
| Content.ClassificationOrder | test4.py:119-122 | the result is "General" when the best score is 0, the best category alone when the runner-up scores 0, and both otherwise, ties going to the earlier category |
| Content.GeneralWhenNoKeyword | test4.py:120-122 | the result is "General" exactly when no keyword occurs |
| Content.ClassifyContent | test4.py:99-122 | the loop returns the classification of the lower-cased text, which has one or two categories |
| Content.CandidatesUpTo | test4.py:88-95 | at most one candidate term per adjacent pair |
| Content.CandidateSound | test4.py:93-95 | every candidate is an adjective–noun or noun–noun pair of adjacent tokens |
| Content.CandidateComplete | test4.py:93-95 | every adjacent adjective–noun or noun–noun pair is a candidate |
| Content.CandidateTerms | test4.py:88-95 | the `terms` list after the loop; `Content.CandidateSound` and `Content.CandidateComplete` characterise it |
| Content.Take | test4.py:97 | `terms[:20]` is the prefix of length `min(20, len(terms))` |
| Content.TechnicalTerms | test4.py:97 | `set(terms[:20])`; characterised by the lemmas below |
| Content.CandidatesPrefix | test4.py:88-95 | the terms found among the first pairs are a prefix of those found among more |
| Content.TechnicalTermsFirst | test4.py:97 | each of the first 20 terms found is returned |
| Content.TechnicalTermsBound | test4.py:97 | at most 20 technical terms are returned |
| Content.TechnicalTermSound | test4.py:97 | every returned term comes from a matching pair of adjacent tokens |
| Content.TechnicalTermsComplete | test4.py:88-97 | every matching pair with fewer than 20 terms found before it is returned |
| Content.FewCandidatesBefore | test4.py:88-97 | with at most 20 candidates in all, every matching pair has fewer than 20 before it, so all are returned |
| Content.ExtractTechnicalTerms | test4.py:82-97 | the loop returns the set of the first 20 candidate terms |
| Detector4.MeanSentenceLength | test4.py:54 | the average sentence length is non-negative |
| Detector4.ExtractFeatures | test4.py:26-80 | no features exactly when fewer than 10 alphabetic words remain or a token is empty; otherwise `word_count` is the number of alphabetic words |
| Detector4.Measure | test4.py:40-77 | the feature record counts the alphabetic words of the cleaned text |
| Detector4.FeatureRanges | test4.py:37-75 | with at least 10 alphabetic words and no empty token, extraction succeeds and every feature lies in its range; the average sentence length is the mean of the per-sentence token counts, and the perplexity is positive when `2 ** x` is |
| Detector4.WordFeatureRanges | test4.py:43-69 | the word-based features lie in their ranges |
| Detector4.SentenceFeatureRanges | test4.py:52-75 | average sentence length non-negative and equal to the mean of the per-sentence token counts, variance non-negative, Flesch–Kincaid 0 without sentences and at most 122.235 otherwise, at most 20 technical terms, perplexity positive when `2 ** x` is |
| Detector4.Criteria | test4.py:206-232 | there are exactly seven criteria |
| Detector4.CriteriaPoints | test4.py:203-232 | the score is the sum of the seven threshold tests on the features |
| Detector4.Assessment | test4.py:234-248 | the report is "AI" exactly when five or more criteria hold, labels it accordingly and carries `"score/7"` |
| Detector4.Judge | test4.py:203-248 | the scoring code produces the assessment, with confidence `score / 7` |
| Detector4.Detect | test4.py:195-250 | too short or invalid text gives the error report; otherwise the assessment of the features and the keyword categories |
| Detector4.AiVerdictMonotone | test4.py:234-235 | passing one more criterion never turns an "AI" verdict into "Human" |
| Detector3.CountIn | test3.py:61 | the punctuation count is at most the text length |
| Detector3.CountInAgree | test3.py:61 | two character classes that agree on the text count the same characters |
| Detector3.PunctuationOfCleanText | test3.py:33-61 | in the cleaned text, counting `string.punctuation` counts only `.`, `?`, `!` and `_` |
| Detector3.ExtractFeatures | test3.py:29-76 | no features exactly when fewer than 10 alphabetic words remain |
| Detector3.Measure | test3.py:43-71 | the ten features of a text of at least 10 alphabetic words; `Detector3.FeatureRanges` states their ranges and that TTR equals lexical diversity |
| Detector3.FeatureRanges | test3.py:40-71 | with at least 10 alphabetic words, extraction succeeds, TTR equals lexical diversity, every feature lies in its range, the average sentence length is the word count over the sentence count (0 without sentences), the punctuation ratio is the count of `.?!_` over the word count, and the perplexity is positive when `2 ** x` is |
| Detector3.Criteria | test3.py:134-160 | there are exactly seven criteria |
| Detector3.CriteriaPoints | test3.py:131-160 | the score is the sum of the seven threshold tests, including `0.05 <= punctuation_ratio <= 0.15` |
| Detector3.Assessment | test3.py:162-171 | the report is "AI" exactly when five or more criteria hold, labels it accordingly and carries `"score/7"` |
| Detector3.Judge | test3.py:131-171 | the scoring code produces the assessment, with confidence `score / 7` |
| Detector3.Detect | test3.py:123-173 | too short text gives the error report; otherwise the assessment of the features |
| Detector2.CleanedText | TEST2.py:14 | `re.sub(r'[^\w\s]', '', text.lower())`; `Cleaning.CleanedHasNoPeriod` and the `Cleaning` rows state what it leaves |
| Detector2.RawSentences | TEST2.py:98 | `[s.strip() for s in text.split('.') if s.strip()]`; `Detector2.NonBlankStripped` and `Strings.StripSlice` state that each kept sentence is a non-blank stripped slice of its piece |
| Detector2.NonBlankStripped | TEST2.py:98 | the kept sentences are non-empty and start with a non-space |
| Detector2.TextStatistics | TEST2.py:11-48 | no statistics exactly when the cleaned text is blank |
| Detector2.StatisticsRanges | TEST2.py:20-38 | unique words between 1 and the word count, average word length at least 1, lexical diversity in `(0, 1]`, common-word ratio in `[0, 1]` |
| Detector2.SingleSentence | TEST2.py:25-33 | the sentence count is always 1, so the average sentence length is the word count |
| Detector2.SentenceWordCounts | TEST2.py:100 | one word count per sentence |
| Detector2.Criteria | TEST2.py:64-109 | there are exactly seven criteria |
| Detector2.CriteriaPoints | TEST2.py:62-109 | the score is the sum of the four statistics tests and the paragraph, phrase and consistency tests |
| Detector2.SentenceLengthsPositive | TEST2.py:98-103 | the mean sentence length is at least 1, so the `mean_length > 0` guard always passes |
| Detector2.ConsistencyAsVariance | TEST2.py:98-109 | the coefficient-of-variation test holds exactly when there are more than three sentences and the variance is below `(0.4 · mean)²` |
| Detector2.LongSentenceMeansManyWords | TEST2.py:68-70 | the sentence-length criterion holds exactly when the text has more than 20 words |
| Detector2.Assessment | TEST2.py:111-124 | the report is "AI" exactly when four or more criteria hold, equivalently when confidence is at least 4/7, labels it accordingly and carries `"score/7"` |
| Detector2.Judge | TEST2.py:61-124 | the scoring code produces the assessment of the seven criteria |
| Detector2.ParagraphCriterion | TEST2.py:81-85 | more than one paragraph, averaging 30 to 100 words |
| Detector2.WordTotal | TEST2.py:83 | `sum(len(p.split()) for p in paragraphs)`; each term is the number of maximal non-whitespace runs of its paragraph (`Strings.SplitWhitespaceCountsRuns`) |
| Detector2.PhraseCriterion | TEST2.py:88-95 | more than two of the ten phrases occur in the lower-cased text |
| Detector2.ConsistencyCriterion | TEST2.py:98-109 | more than three sentences, a positive mean length and a coefficient of variation below 0.4; `Detector2.ConsistencyAsVariance` restates it without the root |
| Detector2.ParagraphPoint | TEST2.py:80-85 | one point exactly when there are several paragraphs averaging 30 to 100 words |
| Detector2.PhrasePoint | TEST2.py:87-95 | one point exactly when more than two of the phrases occur |
| Detector2.ConsistencyPoint | TEST2.py:97-109 | one point exactly when the sentence-length consistency test holds |
| Detector2.IsAiGenerated | TEST2.py:51-126 | "Could not analyze text" when there are no statistics; otherwise the assessment of the statistics and criteria |
| TextAnalyzer.Tokens | app/text_analyzer.py:10 | the word tokens of the lower-cased text |
| TextAnalyzer.LogProb | app/text_analyzer.py:16-20 | the sum of `log(count / total)` over the n-grams in order; `TextAnalyzer.LogProbNonPositive` bounds it |
| TextAnalyzer.Perplexity | app/text_analyzer.py:9-24 | perplexity is infinite exactly when there is no n-gram |
| TextAnalyzer.CalculatePerplexity | app/text_analyzer.py:9-24 | the loop computes the perplexity of the lower-cased tokens, infinite exactly when there is no n-gram |
| TextAnalyzer.SumLogProbabilities | app/text_analyzer.py:16-20 | the loop sums the log-probabilities of the n-grams in order |
| TextAnalyzer.MultiplicityBounds | app/text_analyzer.py:18 | an n-gram's count is at least 1 when it occurs and at most the number of n-grams |
| TextAnalyzer.NGramProbability | app/text_analyzer.py:17-19 | every probability lies in `(0, 1]`, so the `prob > 0` branch is always taken |
| TextAnalyzer.LogProbNonPositive | app/text_analyzer.py:16-20 | the log-probability sum is never positive |
| TextAnalyzer.PerplexityAtLeastOne | app/text_analyzer.py:14-24 | with at least one n-gram, perplexity is finite and at least 1 |
| TextAnalyzer.SentenceBurstiness | app/text_analyzer.py:27-40 | burstiness is non-negative, and 0 with fewer than two sentences |
| TextAnalyzer.BurstinessIsVarianceOverSquaredMean | app/text_analyzer.py:27-40 | with two or more sentences and a positive mean, burstiness is exactly `variance / mean ** 2` |
| TextAnalyzer.UniformSentencesNotBursty | app/text_analyzer.py:27-40 | sentences of equal length give burstiness 0 |
| TextAnalyzer.NormalizedPerplexity | app/text_analyzer.py:50 | `min(p / 100, 1)`: 1 for infinite or large perplexity, `p / 100` otherwise |
| TextAnalyzer.NormalizedBurstiness | app/text_analyzer.py:51 | `min(b / 2, 1)`: 1 from 2 upwards, `b / 2` below |
| TextAnalyzer.Clamp | app/text_analyzer.py:55 | the clamp lies in `[0, 1]` and is the identity there |
| TextAnalyzer.AiProportion | app/text_analyzer.py:50-55 | the AI proportion lies in `[0, 1]` |
| TextAnalyzer.AiProportionMonotone | app/text_analyzer.py:53-55 | more perplexity or more burstiness never raises the AI proportion |
| TextAnalyzer.AiProportionZero | app/text_analyzer.py:50-55 | perplexity of at least 100 and burstiness of at least 2 give proportion 0 |
| TextAnalyzer.AiProportionLinear | app/text_analyzer.py:50-55 | within range the blend is `1 - 0.006·p - 0.2·b` |
| TextAnalyzer.AnalyzeText | app/text_analyzer.py:43-57 | returns the bigram perplexity, the burstiness and their blend, which lies in `[0, 1]` |
| AiGenerator.DefaultDocument | app/ai_generator.py:96 | the fixed text with the topic after its lead-in; `AiGenerator.DefaultMentionsTopic` states it |
| AiGenerator.Document | app/ai_generator.py:86-96 | the template sentences with one dropped, joined by `". "` and ended with `.`, or the default text; `AiGenerator.DocumentSplitsIntoKept` states it |
| AiGenerator.DefaultMentionsTopic | app/ai_generator.py:95-96 | the default document names the topic right after its lead-in |
| AiGenerator.Kept | app/ai_generator.py:90-92 | up to three sentences are kept whole; otherwise exactly the chosen inner sentence is dropped, keeping the first, the last and the order |
| AiGenerator.GenerateAiDocument | app/ai_generator.py:54-96 | the document for the chosen template and removal, or the default text for an unknown topic |
| AiGenerator.ShortParagraphKeptWhole | app/ai_generator.py:89-93 | a template of at most three sentences comes back unchanged with a final `.` |
| AiGenerator.DocumentSplitsIntoKept | app/ai_generator.py:89-93 | the document ends in `.`, and splitting the rest at `". "` gives exactly the kept sentences |

## Left out

- NLTK: `sent_tokenize`, `word_tokenize`, `pos_tag` and the English stopword list are not modelled. They are fields of `Nlp.Toolkit`, and every result holds for any tokeniser, tagger and list.
- Unicode character classes: `\w`, `\s`, `str.isalpha` and `str.lower` come from Unicode tables and are parameters (`Strings.CharClasses`). `str.lower` is applied character by character, so one-to-many case mappings are not modelled.
- Floating point: Python floats are exact reals here, so rounding is not modelled.
- Numeric primitives: `math.sqrt`, `math.log`, `math.exp` and `2 **` are parameters (`Stats.Numerics`). A lemma that needs a property of them (a non-negative root, the signs of log and exp, a positive `2 ** x`) states it as a hypothesis.
- Numeric edge cases: NumPy's float64 results and `float('inf')` arithmetic beyond `min(inf / 100, 1) == 1` are not modelled. `Extended` stands for the one infinite value the analyser returns.
- Exception handlers: the `try`/`except` blocks that turn an unexpected exception into an error report are not modelled, apart from the one exception the code can actually raise (`word[0]` on an empty token in `count_syllables`, which makes `test4.py`'s feature extraction return `None`).
- Formatting and report fields: the `confidence:.2%` text is not modelled. The report keeps the numeric confidence instead, and `confidence_value` is that number times 100.
- Unused parameter: `generate_ai_document`'s `length` argument is unused in the source and is accepted and ignored here.
- Randomness: `random.choice` and `random.randint` become the parameters `pick` and `removeAt`, constrained by `AiGenerator.ValidChoices` to the ranges they can return.
- Template table: `AiGenerator.Templates` holds the source's template table. The generator takes the table as a parameter, so its properties hold for this table and any other.
- Set ordering: the order of `list(set(terms[:20]))` is unspecified in Python. The technical terms are returned as a set.
- Out of scope:
  - the Flask routes, HTML rendering and file and ZIP upload handling in `test3.py`, `test4.py` and `TEST2.py`;
  - `app.py`, `run.py`, `app/routes.py`, `app/models.py`, the database, `initialize_acm_topics`, the PDF extractor and the front-end scripts.
