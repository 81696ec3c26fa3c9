/** `AIDetector` of test4.py: feature extraction, the seven-criterion
    heuristic, and content classification of the submitted text. */
module Detector4 {
  import opened Wrappers
  import opened Strings
  import opened Tally
  import opened Stats
  import opened Nlp
  import opened Metrics
  import opened Readability
  import opened Content
  import opened Scoring

  /** The window of `calculate_mattr` and the n of
      `calculate_simple_perplexity`, as called from `extract_features`. */
  const MattrWindow: nat := 50
  const NGramSize: nat := 2

  /** The `features` dictionary. */
  datatype Features = Features(
    wordCount: nat,
    uniqueWords: nat,
    avgWordLength: real,
    lexicalDiversity: real,
    mattr: real,
    sentenceCount: nat,
    avgSentenceLength: real,
    sentenceLengthVariance: real,
    fleschKincaid: real,
    topWordRatio: real,
    stopwordRatio: real,
    burstiness: real,
    perplexity: real,
    technicalTerms: set<string>)

  /** `sum(sentence_lengths) / len(sentences) if sentences else 0`. */
  function MeanSentenceLength(lengths: seq<nat>): (r: real)
    ensures r >= 0.0
  {
    if |lengths| > 0 then
      MeanBounds(AsReals(lengths), 0.0, 0.0, false);
      Mean(AsReals(lengths))
    else 0.0
  }

  /** `extract_features(text)`: None for fewer than ten alphabetic words, and
      for a text with an empty token, where `count_syllables` fails and the
      exception handler returns None. */
  function ExtractFeatures(tk: Toolkit, num: Numerics, text: string): (r: Option<Features>)
    requires SqrtNonNegative(num)
    ensures r.None? <==> |DetectorWords(tk, text)| < MinimumWords || !NoEmptyToken(tk.wordTokenize(CleanText(tk, text)))
    ensures r.Some? ==> r.value.wordCount == |DetectorWords(tk, text)|
  {
    var clean := CleanText(tk, text);
    var tokens := tk.wordTokenize(clean);
    var words := AlphabeticWords(tk.chars, tokens);
    if |words| < MinimumWords then None
    else if !NoEmptyToken(tokens) then None
    else Some(Measure(tk, num, clean))
  }

  /** The features of a cleaned text with at least ten alphabetic words and
      no empty token. */
  function Measure(tk: Toolkit, num: Numerics, clean: string): (f: Features)
    requires SqrtNonNegative(num)
    requires |AlphabeticWords(tk.chars, tk.wordTokenize(clean))| >= MinimumWords
    requires NoEmptyToken(tk.wordTokenize(clean))
    ensures f.wordCount == |AlphabeticWords(tk.chars, tk.wordTokenize(clean))|
  {
    var sentences := tk.sentTokenize(clean);
    var tokens := tk.wordTokenize(clean);
    var words := AlphabeticWords(tk.chars, tokens);
    var lengths := SentenceLengths(tk, sentences);
    Features(
      wordCount := |words|,
      uniqueWords := |Distinct(words)|,
      avgWordLength := AvgWordLength(words),
      lexicalDiversity := TypeTokenRatio(words),
      mattr := Mattr(words, MattrWindow),
      sentenceCount := |sentences|,
      avgSentenceLength := MeanSentenceLength(lengths),
      sentenceLengthVariance := SentenceLengthVariance(lengths),
      fleschKincaid := FleschKincaid(tk.chars, tokens, |sentences|, |words|).value,
      topWordRatio := TopWordRatio(words),
      stopwordRatio := StopwordRatio(words, tk.stopWords),
      burstiness := FrequencyBurstiness(words, num),
      perplexity := PseudoPerplexity(words, NGramSize, num),
      technicalTerms := TechnicalTerms(tk.posTag(tokens)))
  }

  /** The ranges every extracted feature lies in. */
  lemma FeatureRanges(tk: Toolkit, num: Numerics, text: string)
    requires SqrtNonNegative(num)
    requires |DetectorWords(tk, text)| >= MinimumWords
    requires NoEmptyToken(tk.wordTokenize(CleanText(tk, text)))
    ensures var f := ExtractFeatures(tk, num, text).value;
      && f.wordCount >= MinimumWords
      && 1 <= f.uniqueWords <= f.wordCount
      && f.avgWordLength >= 1.0
      && 0.0 < f.lexicalDiversity <= 1.0
      && f.lexicalDiversity == f.uniqueWords as real / f.wordCount as real
      && 0.0 < f.mattr <= 1.0
      && f.sentenceLengthVariance >= 0.0
      && (f.sentenceCount == 0 ==> f.fleschKincaid == 0.0)
      && (f.sentenceCount > 0 ==> f.fleschKincaid <= BaseScore - SyllableWeight)
      && 0.0 < f.topWordRatio <= 1.0
      && 0.0 <= f.stopwordRatio <= 1.0
      && -1.0 <= f.burstiness < 1.0
      && |f.technicalTerms| <= MaxTerms
      && f.avgSentenceLength >= 0.0
      && (f.sentenceCount > 0 ==> f.avgSentenceLength == Mean(AsReals(SentenceLengths(tk, tk.sentTokenize(CleanText(tk, text))))))
      && (Pow2Positive(num) ==> f.perplexity > 0.0)
  {
    var clean := CleanText(tk, text);
    assert ExtractFeatures(tk, num, text).value == Measure(tk, num, clean);
    WordFeatureRanges(tk, num, clean);
    SentenceFeatureRanges(tk, num, clean);
  }

  lemma WordFeatureRanges(tk: Toolkit, num: Numerics, clean: string)
    requires SqrtNonNegative(num)
    requires |AlphabeticWords(tk.chars, tk.wordTokenize(clean))| >= MinimumWords
    requires NoEmptyToken(tk.wordTokenize(clean))
    ensures var f := Measure(tk, num, clean);
      && f.wordCount >= MinimumWords
      && 1 <= f.uniqueWords <= f.wordCount
      && f.avgWordLength >= 1.0
      && 0.0 < f.lexicalDiversity <= 1.0
      && f.lexicalDiversity == f.uniqueWords as real / f.wordCount as real
      && 0.0 < f.mattr <= 1.0
      && 0.0 < f.topWordRatio <= 1.0
      && 0.0 <= f.stopwordRatio <= 1.0
      && -1.0 <= f.burstiness < 1.0
  {
    var words := AlphabeticWords(tk.chars, tk.wordTokenize(clean));
    DistinctBounds(words);
  }

  lemma SentenceFeatureRanges(tk: Toolkit, num: Numerics, clean: string)
    requires SqrtNonNegative(num)
    requires |AlphabeticWords(tk.chars, tk.wordTokenize(clean))| >= MinimumWords
    requires NoEmptyToken(tk.wordTokenize(clean))
    ensures var f := Measure(tk, num, clean);
      && f.sentenceLengthVariance >= 0.0
      && (f.sentenceCount == 0 ==> f.fleschKincaid == 0.0)
      && (f.sentenceCount > 0 ==> f.fleschKincaid <= BaseScore - SyllableWeight)
      && |f.technicalTerms| <= MaxTerms
      && f.avgSentenceLength >= 0.0
      && (f.sentenceCount > 0 ==> f.avgSentenceLength == Mean(AsReals(SentenceLengths(tk, tk.sentTokenize(clean)))))
      && (Pow2Positive(num) ==> f.perplexity > 0.0)
  {
    var tokens := tk.wordTokenize(clean);
    var words := AlphabeticWords(tk.chars, tokens);
    var sentences := tk.sentTokenize(clean);
    TechnicalTermsBound(tk.posTag(tokens));
    if |sentences| > 0 {
      FleschKincaidCeiling(tk.chars, tokens, |sentences|, |words|);
      MeanBounds(AsReals(SentenceLengths(tk, sentences)), 0.0, 0.0, false);
    }
  }

  /** The seven criteria, in the order `detect` checks them. */
  function Criteria(f: Features): (cs: seq<bool>)
    ensures |cs| == 7
  {
    [ f.lexicalDiversity > 0.7,
      f.sentenceLengthVariance < 20.0,
      f.stopwordRatio < 0.3,
      f.burstiness < 0.2,
      f.perplexity < 50.0,
      f.mattr > 0.6,
      f.topWordRatio > 0.25 ]
  }

  /** The score is the sum of the seven criteria's points. */
  lemma CriteriaPoints(f: Features)
    ensures CountTrue(Criteria(f)) ==
      Point(f.lexicalDiversity > 0.7) + Point(f.sentenceLengthVariance < 20.0) + Point(f.stopwordRatio < 0.3) + Point(f.burstiness < 0.2)
      + Point(f.perplexity < 50.0) + Point(f.mattr > 0.6) + Point(f.topWordRatio > 0.25)
  {
    CountSeven(Criteria(f));
  }

  const MaxScore: nat := 7

  /** The response of `detect`. */
  datatype Verdict =
    | Failure(error: string)
    | Report(
        aiGenerated: bool,
        confidence: real,
        confidenceValue: real,
        labelText: string,
        features: Features,
        categories: seq<string>,
        score: string)

  /** `detect(text)`: the report for the extracted features, with the
      categories of the text as submitted, before cleaning. */
  method Detect(tk: Toolkit, num: Numerics, text: string) returns (r: Verdict)
    requires SqrtNonNegative(num)
    ensures ExtractFeatures(tk, num, text).None? ==> r == Failure("Text too short or invalid")
    ensures ExtractFeatures(tk, num, text).Some? ==>
      r == Assessment(ExtractFeatures(tk, num, text).value, Classification(KeywordScores(Lower(tk.chars, text))))
  {
    var features := ExtractFeatures(tk, num, text);
    if features.None? {
      return Failure("Text too short or invalid");
    }
    var categories := ClassifyContent(tk.chars, text);
    r := Judge(features.value, categories);
  }

  /** The report for features `f`: AI-written exactly when at least five of
      the seven criteria hold, which is a confidence above 0.6. */
  function Assessment(f: Features, categories: seq<string>): (r: Verdict)
    ensures r.Report? && r.features == f && r.categories == categories
    ensures r.aiGenerated <==> CountTrue(Criteria(f)) >= 5
    ensures r.labelText == Label(r.aiGenerated)
    ensures r.score == ScoreText(CountTrue(Criteria(f)), MaxScore)
  {
    var k := CountTrue(Criteria(f));
    var confidence := k as real / MaxScore as real;
    ConfidenceAboveSixTenths(k);
    Report(confidence > 0.6, confidence, confidence * 100.0, Label(confidence > 0.6), f,
      categories, ScoreText(k, MaxScore))
  }

  /** The scoring half of `detect`: one point per criterion that holds. */
  method Judge(f: Features, categories: seq<string>) returns (r: Verdict)
    ensures r == Assessment(f, categories)
    ensures r.confidence == CountTrue(Criteria(f)) as real / MaxScore as real
  {
    var score := 0;
    if f.lexicalDiversity > 0.7 {
      score := score + 1;
    }
    assert score == Point(f.lexicalDiversity > 0.7);
    if f.sentenceLengthVariance < 20.0 {
      score := score + 1;
    }
    assert score == Point(f.lexicalDiversity > 0.7) + Point(f.sentenceLengthVariance < 20.0);
    if f.stopwordRatio < 0.3 {
      score := score + 1;
    }
    assert score == Point(f.lexicalDiversity > 0.7) + Point(f.sentenceLengthVariance < 20.0) + Point(f.stopwordRatio < 0.3);
    if f.burstiness < 0.2 {
      score := score + 1;
    }
    assert score == Point(f.lexicalDiversity > 0.7) + Point(f.sentenceLengthVariance < 20.0) + Point(f.stopwordRatio < 0.3) + Point(f.burstiness < 0.2);
    if f.perplexity < 50.0 {
      score := score + 1;
    }
    assert score == Point(f.lexicalDiversity > 0.7) + Point(f.sentenceLengthVariance < 20.0) + Point(f.stopwordRatio < 0.3) + Point(f.burstiness < 0.2)
      + Point(f.perplexity < 50.0);
    if f.mattr > 0.6 {
      score := score + 1;
    }
    assert score == Point(f.lexicalDiversity > 0.7) + Point(f.sentenceLengthVariance < 20.0) + Point(f.stopwordRatio < 0.3) + Point(f.burstiness < 0.2)
      + Point(f.perplexity < 50.0) + Point(f.mattr > 0.6);
    if f.topWordRatio > 0.25 {
      score := score + 1;
    }
    assert score == Point(f.lexicalDiversity > 0.7) + Point(f.sentenceLengthVariance < 20.0) + Point(f.stopwordRatio < 0.3) + Point(f.burstiness < 0.2)
      + Point(f.perplexity < 50.0) + Point(f.mattr > 0.6) + Point(f.topWordRatio > 0.25);
    CriteriaPoints(f);
    assert score == CountTrue(Criteria(f));
    var confidence := score as real / MaxScore as real;
    var aiGenerated := confidence > 0.6;
    r := Report(aiGenerated, confidence, confidence * 100.0, Label(aiGenerated), f,
      categories, ScoreText(score, MaxScore));
  }

  /** One more criterion holding never turns an AI verdict into a human one. */
  lemma AiVerdictMonotone(cs: seq<bool>, i: nat)
    requires i < |cs| && !cs[i] && CountTrue(cs) >= 5
    ensures CountTrue(cs[i := true]) >= 5
  {
    FlipAddsOne(cs, i);
  }
}
