/** TEST2.py: `calculate_text_statistics` and `is_ai_generated`, a
    seven-criterion detector that needs no tokeniser. */
module Detector2 {
  import opened Wrappers
  import opened Strings
  import opened Cleaning
  import opened Tally
  import opened Stats
  import opened Metrics
  import opened Content
  import opened Scoring

  /** The statistics dictionary. */
  datatype Statistics = Statistics(
    wordCount: nat,
    uniqueWords: nat,
    avgWordLength: real,
    sentenceCount: nat,
    lexicalDiversity: real,
    avgSentenceLength: real,
    commonWordRatio: real)

  const CommonWords: seq<string> := ["the", "be", "to", "of", "and", "a", "in", "that", "have", "i"]

  /** `re.sub(r'[^\w\s]', '', text.lower())`. */
  function CleanedText(cc: CharClasses, text: string): string
  {
    Clean(cc, WordSpace, Lower(cc, text))
  }

  /** `[s.strip() for s in pieces if s.strip()]`. */
  function NonBlankStripped(cc: CharClasses, pieces: seq<string>): (r: seq<string>)
    ensures |r| <= |pieces|
    ensures forall i :: 0 <= i < |r| ==> r[i] != [] && !cc.isSpace(r[i][0])
  {
    if pieces == [] then []
    else
      var t := Strip(cc, pieces[0]);
      (if t != [] then [t] else []) + NonBlankStripped(cc, pieces[1..])
  }

  /** `calculate_text_statistics(text)`: None exactly when the cleaned text
      has no words. */
  function TextStatistics(cc: CharClasses, text: string): (r: Option<Statistics>)
    ensures r.None? <==> Blank(cc, CleanedText(cc, text))
  {
    var clean := CleanedText(cc, text);
    var words := SplitWhitespace(cc, clean);
    SplitWhitespaceEmpty(cc, clean);
    if words == [] then None
    else
      var wordCount := |words|;
      var uniqueWords := |Distinct(words)|;
      var sentenceCount := |NonBlankStripped(cc, Split(clean, "."))|;
      var commonCount := MemberCount(words, set w | w in CommonWords);
      Some(Statistics(
        wordCount := wordCount,
        uniqueWords := uniqueWords,
        avgWordLength := AvgWordLength(words),
        sentenceCount := sentenceCount,
        lexicalDiversity := if wordCount > 0 then uniqueWords as real / wordCount as real else 0.0,
        avgSentenceLength := if sentenceCount > 0 then wordCount as real / sentenceCount as real else 0.0,
        commonWordRatio := if wordCount > 0 then commonCount as real / wordCount as real else 0.0))
  }

  /** The ranges of the statistics. */
  lemma StatisticsRanges(cc: CharClasses, text: string)
    requires TextStatistics(cc, text).Some?
    ensures var s := TextStatistics(cc, text).value;
      && 1 <= s.uniqueWords <= s.wordCount
      && s.avgWordLength >= 1.0
      && 0.0 < s.lexicalDiversity <= 1.0
      && 0.0 <= s.commonWordRatio <= 1.0
  {
    var words := SplitWhitespace(cc, CleanedText(cc, text));
    DistinctBounds(words);
    Proportion(|Distinct(words)|, |words|);
    Proportion(MemberCount(words, set w | w in CommonWords), |words|);
  }

  /** The cleaning has already deleted every '.', so the split on '.' finds
      one piece, the whole text: there is exactly one sentence, and the
      average sentence length is the word count. */
  lemma SingleSentence(cc: CharClasses, text: string)
    requires PunctuationClassified(cc)
    requires TextStatistics(cc, text).Some?
    ensures TextStatistics(cc, text).value.sentenceCount == 1
    ensures TextStatistics(cc, text).value.avgSentenceLength == TextStatistics(cc, text).value.wordCount as real
  {
    var clean := CleanedText(cc, text);
    CleanedHasNoPeriod(cc, Lower(cc, text));
    forall i | 0 <= i <= |clean| ensures !MatchAt(clean, ".", i) {
      if i + 1 <= |clean| {
        assert clean[i..i + 1][0] == clean[i];
      }
    }
    SplitWithoutSeparator(clean, ".");
    var stripped := Strip(cc, clean);
    assert [clean][1..] == [];
    assert NonBlankStripped(cc, [clean]) == [stripped];
  }

  // ---------------------------------------------------------------------------
  // is_ai_generated

  const AiPhrases: seq<string> := [
    "in conclusion", "furthermore", "moreover", "however", "therefore",
    "as a result", "consequently", "additionally", "nevertheless", "nonetheless"]

  /** `sum(len(p.split()) for p in pieces)`. */
  function WordTotal(cc: CharClasses, pieces: seq<string>): nat
  {
    if pieces == [] then 0 else |SplitWhitespace(cc, pieces[0])| + WordTotal(cc, pieces[1..])
  }

  /** More than one paragraph, averaging 30 to 100 words. */
  predicate ParagraphCriterion(cc: CharClasses, text: string)
  {
    var paragraphs := Split(text, "\n\n");
    |paragraphs| > 1 && 30.0 <= WordTotal(cc, paragraphs) as real / |paragraphs| as real <= 100.0
  }

  /** More than two of the transition phrases occur in the lower-cased text. */
  predicate PhraseCriterion(cc: CharClasses, text: string)
  {
    KeywordScore(Lower(cc, text), AiPhrases) > 2
  }

  /** The sentences of the raw text: the stripped non-blank pieces between '.'s. */
  function RawSentences(cc: CharClasses, text: string): seq<string>
  {
    NonBlankStripped(cc, Split(text, "."))
  }

  /** `[len(s.split()) for s in sentences]`. */
  function SentenceWordCounts(cc: CharClasses, sentences: seq<string>): (r: seq<nat>)
    ensures |r| == |sentences|
  {
    seq(|sentences|, i requires 0 <= i < |sentences| => |SplitWhitespace(cc, sentences[i])|)
  }

  /** More than three sentences whose lengths have a coefficient of variation
      (population standard deviation over mean) below 0.4. */
  predicate ConsistencyCriterion(cc: CharClasses, num: Numerics, text: string)
  {
    var lengths := AsReals(SentenceWordCounts(cc, RawSentences(cc, text)));
    |lengths| > 3 && Mean(lengths) > 0.0 && num.sqrt(PopVariance(lengths)) / Mean(lengths) < 0.4
  }

  /** The seven criteria, in the order `is_ai_generated` checks them. */
  function Criteria(cc: CharClasses, num: Numerics, text: string, s: Statistics): (cs: seq<bool>)
    ensures |cs| == 7
  {
    [ s.lexicalDiversity > 0.7,
      s.avgSentenceLength > 20.0,
      4.5 <= s.avgWordLength <= 5.5,
      0.2 <= s.commonWordRatio <= 0.4,
      ParagraphCriterion(cc, text),
      PhraseCriterion(cc, text),
      ConsistencyCriterion(cc, num, text) ]
  }

  /** The points the four statistics criteria contribute. */
  function StatisticsPoints(s: Statistics): nat
  {
    Point(s.lexicalDiversity > 0.7) + Point(s.avgSentenceLength > 20.0)
      + Point(4.5 <= s.avgWordLength <= 5.5) + Point(0.2 <= s.commonWordRatio <= 0.4)
  }

  /** The score is the sum of the seven criteria's points. */
  lemma CriteriaPoints(cc: CharClasses, num: Numerics, text: string, s: Statistics)
    ensures CountTrue(Criteria(cc, num, text, s)) == StatisticsPoints(s)
      + Point(ParagraphCriterion(cc, text)) + Point(PhraseCriterion(cc, text))
      + Point(ConsistencyCriterion(cc, num, text))
  {
    CountSeven(Criteria(cc, num, text, s));
  }

  /** Every stripped sentence has at least one word, so the mean sentence
      length is at least one and the guard `mean_length > 0` always passes. */
  lemma SentenceLengthsPositive(cc: CharClasses, text: string)
    requires |RawSentences(cc, text)| > 0
    ensures Mean(AsReals(SentenceWordCounts(cc, RawSentences(cc, text)))) >= 1.0
  {
    var sentences := RawSentences(cc, text);
    var lengths := AsReals(SentenceWordCounts(cc, sentences));
    forall i | 0 <= i < |sentences| ensures SplitWhitespace(cc, sentences[i]) != [] {
      SplitWhitespaceEmpty(cc, sentences[i]);
      assert !Blank(cc, sentences[i]) by {
        assert !cc.isSpace(sentences[i][0]);
      }
    }
    MeanBounds(lengths, 1.0, 0.0, false);
  }

  /** With an exact square root, the consistency criterion is a comparison of
      the variance with the squared mean: variance < (0.4 · mean)². */
  lemma ConsistencyAsVariance(cc: CharClasses, num: Numerics, text: string)
    requires SqrtExact(num)
    ensures var lengths := AsReals(SentenceWordCounts(cc, RawSentences(cc, text)));
      ConsistencyCriterion(cc, num, text) <==>
        |lengths| > 3 && PopVariance(lengths) < (0.4 * Mean(lengths)) * (0.4 * Mean(lengths))
  {
    var lengths := AsReals(SentenceWordCounts(cc, RawSentences(cc, text)));
    if |lengths| > 3 {
      SentenceLengthsPositive(cc, text);
      var v := PopVariance(lengths);
      RootRatioBelow(num.sqrt(v), v, Mean(lengths), 0.4);
    }
  }

  /** Under the single-sentence quirk, the sentence-length criterion says
      only that there are more than twenty words. */
  lemma LongSentenceMeansManyWords(cc: CharClasses, num: Numerics, text: string)
    requires PunctuationClassified(cc)
    requires TextStatistics(cc, text).Some?
    ensures var s := TextStatistics(cc, text).value;
      Criteria(cc, num, text, s)[1] <==> s.wordCount > 20
  {
    SingleSentence(cc, text);
  }

  const MaxScore: nat := 7
  const AiThreshold: nat := 4

  /** The response of `is_ai_generated`. */
  datatype Verdict =
    | Failure(error: string)
    | Report(aiGenerated: bool, confidence: real, score: string, labelText: string, statistics: Statistics)

  /** The report for statistics `s` and the criteria that hold: AI-written
      exactly when at least four criteria hold. */
  function Assessment(s: Statistics, criteria: seq<bool>): (r: Verdict)
    ensures r.Report? && r.statistics == s
    ensures r.aiGenerated <==> CountTrue(criteria) >= AiThreshold
    ensures r.aiGenerated <==> r.confidence >= AiThreshold as real / MaxScore as real
    ensures r.labelText == Label(r.aiGenerated)
    ensures r.score == ScoreText(CountTrue(criteria), MaxScore)
  {
    var k := CountTrue(criteria);
    Report(k >= AiThreshold, k as real / MaxScore as real, ScoreText(k, MaxScore), Label(k >= AiThreshold), s)
  }

  /** `is_ai_generated(text)`. */
  method IsAiGenerated(cc: CharClasses, num: Numerics, text: string) returns (r: Verdict)
    ensures TextStatistics(cc, text).None? ==> r == Failure("Could not analyze text")
    ensures TextStatistics(cc, text).Some? ==>
      var s := TextStatistics(cc, text).value;
      r == Assessment(s, Criteria(cc, num, text, s))
  {
    var stats := TextStatistics(cc, text);
    if stats.None? {
      return Failure("Could not analyze text");
    }
    r := Judge(cc, num, text, stats.value);
  }

  /** The scoring part of `is_ai_generated`: one point per criterion. */
  method Judge(cc: CharClasses, num: Numerics, text: string, s: Statistics) returns (r: Verdict)
    ensures r == Assessment(s, Criteria(cc, num, text, s))
  {
    var score := 0;
    if s.lexicalDiversity > 0.7 {
      score := score + 1;
    }
    assert score == Point(s.lexicalDiversity > 0.7);
    if s.avgSentenceLength > 20.0 {
      score := score + 1;
    }
    assert score == Point(s.lexicalDiversity > 0.7) + Point(s.avgSentenceLength > 20.0);
    if 4.5 <= s.avgWordLength <= 5.5 {
      score := score + 1;
    }
    assert score == Point(s.lexicalDiversity > 0.7) + Point(s.avgSentenceLength > 20.0)
      + Point(4.5 <= s.avgWordLength <= 5.5);
    if 0.2 <= s.commonWordRatio <= 0.4 {
      score := score + 1;
    }
    assert score == StatisticsPoints(s);

    var paragraphPoint := ParagraphPoint(cc, text);
    score := score + paragraphPoint;
    assert score == StatisticsPoints(s) + Point(ParagraphCriterion(cc, text));

    var phrasePoint := PhrasePoint(cc, text);
    score := score + phrasePoint;
    assert score == StatisticsPoints(s) + Point(ParagraphCriterion(cc, text)) + Point(PhraseCriterion(cc, text));

    var consistencyPoint := ConsistencyPoint(cc, num, text);
    score := score + consistencyPoint;
    CriteriaPoints(cc, num, text, s);
    assert score == CountTrue(Criteria(cc, num, text, s));
    var confidence := score as real / MaxScore as real;
    var aiGenerated := score >= AiThreshold;
    r := Report(aiGenerated, confidence, ScoreText(score, MaxScore), Label(aiGenerated), s);
  }

  /** The paragraph check of `is_ai_generated`. */
  method ParagraphPoint(cc: CharClasses, text: string) returns (p: nat)
    ensures p == Point(ParagraphCriterion(cc, text))
  {
    p := 0;
    var paragraphs := Split(text, "\n\n");
    if |paragraphs| > 1 {
      var avgParaLength := WordTotal(cc, paragraphs) as real / |paragraphs| as real;
      if 30.0 <= avgParaLength <= 100.0 {
        p := 1;
      }
    }
  }

  /** The transition-phrase check of `is_ai_generated`. */
  method PhrasePoint(cc: CharClasses, text: string) returns (p: nat)
    ensures p == Point(PhraseCriterion(cc, text))
  {
    p := 0;
    var textLower := Lower(cc, text);
    var aiPhraseCount := KeywordScore(textLower, AiPhrases);
    if aiPhraseCount > 2 {
      p := 1;
    }
  }

  /** The sentence-length consistency check of `is_ai_generated`. */
  method ConsistencyPoint(cc: CharClasses, num: Numerics, text: string) returns (p: nat)
    ensures p == Point(ConsistencyCriterion(cc, num, text))
  {
    p := 0;
    var sentences := NonBlankStripped(cc, Split(text, "."));
    if |sentences| > 3 {
      var lengths := AsReals(SentenceWordCounts(cc, sentences));
      var meanLength := Sum(lengths) / |lengths| as real;
      if meanLength > 0.0 {
        var variance := Sum(SquaredDeviations(lengths, meanLength)) / |lengths| as real;
        var stdDev := num.sqrt(variance);
        var cv := stdDev / meanLength;
        if cv < 0.4 {
          p := 1;
        }
      }
    }
  }
}
