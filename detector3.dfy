/** `AIDetector` of test3.py: the same word metrics as test4.py, plus the
    punctuation ratio, and a seven-criterion heuristic in which punctuation
    consistency takes the place of the top-word criterion. */
module Detector3 {
  import opened Wrappers
  import opened Strings
  import opened Cleaning
  import opened Tally
  import opened Stats
  import opened Nlp
  import opened Metrics
  import opened Scoring

  const MattrWindow: nat := 50
  const NGramSize: nat := 2

  /** The `features` dictionary. */
  datatype Features = Features(
    lexicalDiversity: real,
    ttr: real,
    mattr: real,
    avgSentenceLength: real,
    sentenceLengthVariance: real,
    topWordRatio: real,
    punctuationRatio: real,
    burstiness: real,
    perplexity: real,
    stopwordRatio: real)

  /** How many characters of `s` belong to `chars`. */
  function CountIn(s: string, chars: string): (n: nat)
    ensures n <= |s|
  {
    if s == [] then 0 else (if s[0] in chars then 1 else 0) + CountIn(s[1..], chars)
  }

  /** Two character sets that agree on every character of `s` count the same. */
  lemma {:induction false} CountInAgree(s: string, a: string, b: string)
    requires forall i :: 0 <= i < |s| ==> (s[i] in a <==> s[i] in b)
    ensures CountIn(s, a) == CountIn(s, b)
  {
    if s != [] {
      CountInAgree(s[1..], a, b);
    }
  }

  /** In the cleaned text, `string.punctuation` counts only the sentence
      terminators '.', '?', '!' and the underscore. */
  lemma PunctuationOfCleanText(cc: CharClasses, text: string)
    requires PunctuationClassified(cc)
    ensures CountIn(Clean(cc, WordSpaceTerminators, text), Punctuation)
      == CountIn(Clean(cc, WordSpaceTerminators, text), ".?!_")
  {
    var clean := Clean(cc, WordSpaceTerminators, text);
    forall i | 0 <= i < |clean| ensures clean[i] in Punctuation <==> clean[i] in ".?!_" {
      if clean[i] in Punctuation {
        CleanedPunctuation(cc, text, i);
      }
    }
    CountInAgree(clean, Punctuation, ".?!_");
  }

  /** `extract_features(text)`: None exactly for fewer than ten alphabetic
      words. */
  function ExtractFeatures(tk: Toolkit, num: Numerics, text: string): (r: Option<Features>)
    requires SqrtNonNegative(num)
    ensures r.None? <==> |DetectorWords(tk, text)| < MinimumWords
  {
    var clean := CleanText(tk, text);
    if |AlphabeticWords(tk.chars, tk.wordTokenize(clean))| < MinimumWords then None
    else Some(Measure(tk, num, clean))
  }

  /** The features of a cleaned text with at least ten alphabetic words. */
  function Measure(tk: Toolkit, num: Numerics, clean: string): Features
    requires SqrtNonNegative(num)
    requires |AlphabeticWords(tk.chars, tk.wordTokenize(clean))| >= MinimumWords
  {
    var sentences := tk.sentTokenize(clean);
    var words := AlphabeticWords(tk.chars, tk.wordTokenize(clean));
    var wordCount := |words|;
    Features(
      lexicalDiversity := TypeTokenRatio(words),
      ttr := TypeTokenRatio(words),
      mattr := Mattr(words, MattrWindow),
      avgSentenceLength := if |sentences| > 0 then wordCount as real / |sentences| as real else 0.0,
      sentenceLengthVariance := SentenceLengthVariance(SentenceLengths(tk, sentences)),
      topWordRatio := TopWordRatio(words),
      punctuationRatio := CountIn(clean, Punctuation) as real / wordCount as real,
      burstiness := FrequencyBurstiness(words, num),
      perplexity := PseudoPerplexity(words, NGramSize, num),
      stopwordRatio := StopwordRatio(words, tk.stopWords))
  }

  /** The ranges of the features, and the two relations test3.py's features
      have among themselves: the type-token ratio is the lexical diversity,
      and the punctuation counted is only '.', '?', '!' and '_'. */
  lemma FeatureRanges(tk: Toolkit, num: Numerics, text: string)
    requires SqrtNonNegative(num) && PunctuationClassified(tk.chars)
    requires |DetectorWords(tk, text)| >= MinimumWords
    ensures var f := ExtractFeatures(tk, num, text).value;
      var clean := CleanText(tk, text);
      && f.ttr == f.lexicalDiversity
      && 0.0 < f.lexicalDiversity <= 1.0
      && 0.0 < f.mattr <= 1.0
      && f.avgSentenceLength >= 0.0
      && f.sentenceLengthVariance >= 0.0
      && 0.0 < f.topWordRatio <= 1.0
      && f.punctuationRatio == CountIn(clean, ".?!_") as real / |DetectorWords(tk, text)| as real
      && f.punctuationRatio >= 0.0
      && -1.0 <= f.burstiness < 1.0
      && 0.0 <= f.stopwordRatio <= 1.0
      && (|tk.sentTokenize(clean)| > 0 ==>
            f.avgSentenceLength == |DetectorWords(tk, text)| as real / |tk.sentTokenize(clean)| as real)
      && (|tk.sentTokenize(clean)| == 0 ==> f.avgSentenceLength == 0.0)
      && (Pow2Positive(num) ==> f.perplexity > 0.0)
  {
    var clean := CleanText(tk, text);
    var sentences := tk.sentTokenize(clean);
    var words := AlphabeticWords(tk.chars, tk.wordTokenize(clean));
    assert ExtractFeatures(tk, num, text).value == Measure(tk, num, clean);
    PunctuationOfCleanText(tk.chars, text);
    QuotientNonNegative(CountIn(clean, Punctuation) as real, |words| as real);
    if |sentences| > 0 {
      QuotientNonNegative(|words| as real, |sentences| as real);
    }
  }

  /** The seven criteria, in the order `detect` checks them. */
  function Criteria(f: Features): (cs: seq<bool>)
    ensures |cs| == 7
  {
    [ f.lexicalDiversity > 0.7,
      f.sentenceLengthVariance < 20.0,
      f.stopwordRatio < 0.3,
      f.burstiness < 0.2,
      f.perplexity < 50.0,
      0.05 <= f.punctuationRatio <= 0.15,
      f.mattr > 0.6 ]
  }

  /** The score is the sum of the seven criteria's points. */
  lemma CriteriaPoints(f: Features)
    ensures CountTrue(Criteria(f)) ==
      Point(f.lexicalDiversity > 0.7) + Point(f.sentenceLengthVariance < 20.0) + Point(f.stopwordRatio < 0.3) + Point(f.burstiness < 0.2)
      + Point(f.perplexity < 50.0) + Point(0.05 <= f.punctuationRatio <= 0.15) + Point(f.mattr > 0.6)
  {
    CountSeven(Criteria(f));
  }

  const MaxScore: nat := 7

  /** The response of `detect`. */
  datatype Verdict =
    | Failure(error: string)
    | Report(aiGenerated: bool, confidence: real, score: string, labelText: string, features: Features)

  /** The report for features `f`: AI-written exactly when at least five of
      the seven criteria hold, which is a confidence above 0.6. */
  function Assessment(f: Features): (r: Verdict)
    ensures r.Report? && r.features == f
    ensures r.aiGenerated <==> CountTrue(Criteria(f)) >= 5
    ensures r.labelText == Label(r.aiGenerated)
    ensures r.score == ScoreText(CountTrue(Criteria(f)), MaxScore)
  {
    var k := CountTrue(Criteria(f));
    var confidence := k as real / MaxScore as real;
    ConfidenceAboveSixTenths(k);
    Report(confidence > 0.6, confidence, ScoreText(k, MaxScore), Label(confidence > 0.6), f)
  }

  /** `detect(text)`. */
  method Detect(tk: Toolkit, num: Numerics, text: string) returns (r: Verdict)
    requires SqrtNonNegative(num)
    ensures ExtractFeatures(tk, num, text).None? ==> r == Failure("Text too short or invalid")
    ensures ExtractFeatures(tk, num, text).Some? ==> r == Assessment(ExtractFeatures(tk, num, text).value)
  {
    var features := ExtractFeatures(tk, num, text);
    if features.None? {
      return Failure("Text too short or invalid");
    }
    r := Judge(features.value);
  }

  /** The scoring half of `detect`: one point per criterion that holds. */
  method Judge(f: Features) returns (r: Verdict)
    ensures r == Assessment(f)
    ensures r.confidence == CountTrue(Criteria(f)) as real / MaxScore as real
  {
    var score := 0;
    if f.lexicalDiversity > 0.7 {
      score := score + 1;
    }
    assert score == Point(f.lexicalDiversity > 0.7);
    if f.sentenceLengthVariance < 20.0 {
      score := score + 1;
    }
    assert score == Point(f.lexicalDiversity > 0.7) + Point(f.sentenceLengthVariance < 20.0);
    if f.stopwordRatio < 0.3 {
      score := score + 1;
    }
    assert score == Point(f.lexicalDiversity > 0.7) + Point(f.sentenceLengthVariance < 20.0) + Point(f.stopwordRatio < 0.3);
    if f.burstiness < 0.2 {
      score := score + 1;
    }
    assert score == Point(f.lexicalDiversity > 0.7) + Point(f.sentenceLengthVariance < 20.0) + Point(f.stopwordRatio < 0.3) + Point(f.burstiness < 0.2);
    if f.perplexity < 50.0 {
      score := score + 1;
    }
    assert score == Point(f.lexicalDiversity > 0.7) + Point(f.sentenceLengthVariance < 20.0) + Point(f.stopwordRatio < 0.3) + Point(f.burstiness < 0.2)
      + Point(f.perplexity < 50.0);
    if 0.05 <= f.punctuationRatio <= 0.15 {
      score := score + 1;
    }
    assert score == Point(f.lexicalDiversity > 0.7) + Point(f.sentenceLengthVariance < 20.0) + Point(f.stopwordRatio < 0.3) + Point(f.burstiness < 0.2)
      + Point(f.perplexity < 50.0) + Point(0.05 <= f.punctuationRatio <= 0.15);
    if f.mattr > 0.6 {
      score := score + 1;
    }
    assert score == Point(f.lexicalDiversity > 0.7) + Point(f.sentenceLengthVariance < 20.0) + Point(f.stopwordRatio < 0.3) + Point(f.burstiness < 0.2)
      + Point(f.perplexity < 50.0) + Point(0.05 <= f.punctuationRatio <= 0.15) + Point(f.mattr > 0.6);
    CriteriaPoints(f);
    assert score == CountTrue(Criteria(f));
    var confidence := score as real / MaxScore as real;
    var aiGenerated := confidence > 0.6;
    r := Report(aiGenerated, confidence, ScoreText(score, MaxScore), Label(aiGenerated), f);
  }
}
