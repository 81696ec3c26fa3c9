/** app/text_analyzer.py: a bigram perplexity over the whole token stream,
    sentence-length burstiness, and their clamped blend into an AI
    proportion. */
module TextAnalyzer {
  import opened Strings
  import opened Tally
  import opened Stats
  import opened Nlp
  import opened Metrics

  /** A float that may be `float('inf')`. */
  datatype Extended = Finite(value: real) | Infinite

  /** `a <= b` on floats extended with infinity. */
  predicate AtMost(a: Extended, b: Extended)
  {
    b.Infinite? || (a.Finite? && a.value <= b.value)
  }

  const BigramSize: nat := 2

  /** `word_tokenize(text.lower())`. */
  function Tokens(tk: Toolkit, text: string): seq<string>
  {
    tk.wordTokenize(Lower(tk.chars, text))
  }

  // ---------------------------------------------------------------------------
  // calculate_perplexity

  /** `log_prob` after the n-grams of `prefix`: the sum of `math.log(prob)`
      with `prob = count / total`, a zero probability adding nothing. */
  function LogProb(prefix: seq<seq<string>>, counts: seq<(seq<string>, nat)>, total: nat, num: Numerics): real
    requires total > 0
  {
    if prefix == [] then 0.0
    else
      var prob := Lookup(counts, prefix[|prefix| - 1]) as real / total as real;
      LogProb(prefix[..|prefix| - 1], counts, total, num) + (if prob > 0.0 then num.ln(prob) else 0.0)
  }

  /** The value of `calculate_perplexity(text, n)` on the tokens: infinite
      without n-grams, otherwise `exp(-log_prob / total_ngrams)`. */
  function Perplexity(tokens: seq<string>, n: nat, num: Numerics): (r: Extended)
    ensures r.Infinite? <==> n == 0 || |tokens| < n
  {
    var ngrams := AllNGrams(tokens, n);
    if |ngrams| == 0 then Infinite
    else Finite(num.exp(-LogProb(ngrams, Counter(ngrams), |ngrams|, num) / |ngrams| as real))
  }

  /** `calculate_perplexity(text, n)`. */
  method CalculatePerplexity(tk: Toolkit, num: Numerics, text: string, n: nat) returns (r: Extended)
    ensures r == Perplexity(Tokens(tk, text), n, num)
    ensures r.Infinite? <==> n == 0 || |Tokens(tk, text)| < n
  {
    var tokens := tk.wordTokenize(Lower(tk.chars, text));
    var ngrams := AllNGrams(tokens, n);
    var ngramCounts := Counter(ngrams);
    var totalNgrams := |ngrams|;
    if totalNgrams == 0 {
      return Infinite;
    }
    var logProb := SumLogProbabilities(ngrams, ngramCounts, totalNgrams, num);
    r := Finite(num.exp(-logProb / totalNgrams as real));
  }

  /** The loop `log_prob += math.log(prob) if prob > 0 else 0` over the
      n-grams. */
  method SumLogProbabilities(ngrams: seq<seq<string>>, counts: seq<(seq<string>, nat)>, total: nat, num: Numerics)
    returns (logProb: real)
    requires total > 0
    ensures logProb == LogProb(ngrams, counts, total, num)
  {
    logProb := 0.0;
    var i := 0;
    while i < |ngrams|
      invariant 0 <= i <= |ngrams|
      invariant logProb == LogProb(ngrams[..i], counts, total, num)
    {
      var count := Lookup(counts, ngrams[i]);
      var prob := count as real / total as real;
      assert ngrams[..i + 1][..i] == ngrams[..i];
      logProb := logProb + (if prob > 0.0 then num.ln(prob) else 0.0);
      i := i + 1;
    }
    assert ngrams[..i] == ngrams;
  }

  /** An element occurs at most `|s|` times, and at least once when present. */
  lemma {:induction false} MultiplicityBounds<T>(s: seq<T>, y: T)
    ensures multiset(s)[y] <= |s|
    ensures y in s ==> multiset(s)[y] >= 1
  {
    if s != [] {
      assert s == [s[0]] + s[1..];
      assert multiset(s) == multiset([s[0]]) + multiset(s[1..]);
      MultiplicityBounds(s[1..], y);
    }
  }

  /** Every n-gram of the list has a probability in (0, 1]: the guard
      `if prob > 0` always passes. */
  lemma NGramProbability(ngrams: seq<seq<string>>, i: nat)
    requires i < |ngrams|
    ensures 0.0 < Lookup(Counter(ngrams), ngrams[i]) as real / |ngrams| as real <= 1.0
  {
    CounterLookup(ngrams, ngrams[i]);
    MultiplicityBounds(ngrams, ngrams[i]);
    Proportion(Lookup(Counter(ngrams), ngrams[i]), |ngrams|);
  }

  /** The signs of `math.log` and `math.exp` the perplexity bound needs. */
  ghost predicate LogExpSigns(num: Numerics)
  {
    && (forall x :: 0.0 < x <= 1.0 ==> num.ln(x) <= 0.0)
    && (forall x :: 0.0 <= x ==> num.exp(x) >= 1.0)
  }

  lemma {:induction false} LogProbNonPositive(ngrams: seq<seq<string>>, k: nat, num: Numerics)
    requires LogExpSigns(num)
    requires 0 < |ngrams| && k <= |ngrams|
    ensures LogProb(ngrams[..k], Counter(ngrams), |ngrams|, num) <= 0.0
  {
    if k > 0 {
      var prefix := ngrams[..k];
      assert prefix[..k - 1] == ngrams[..k - 1];
      assert prefix[k - 1] == ngrams[k - 1];
      LogProbNonPositive(ngrams, k - 1, num);
      NGramProbability(ngrams, k - 1);
    }
  }

  /** Every probability is at most one, so the log-probability is not
      positive and a finite perplexity is at least 1. */
  lemma PerplexityAtLeastOne(tokens: seq<string>, n: nat, num: Numerics)
    requires LogExpSigns(num)
    requires 0 < n <= |tokens|
    ensures Perplexity(tokens, n, num).value >= 1.0
  {
    var ngrams := AllNGrams(tokens, n);
    var total := |ngrams|;
    LogProbNonPositive(ngrams, total, num);
    assert ngrams[..total] == ngrams;
    var l := LogProb(ngrams, Counter(ngrams), total, num);
    QuotientNonNegative(-l, total as real);
    assert num.exp(-l / total as real) >= 1.0;
  }

  // ---------------------------------------------------------------------------
  // calculate_burstiness

  /** `calculate_burstiness(text)`: the population variance of the sentence
      lengths over the squared mean; 0 below two sentences or for a zero mean. */
  function SentenceBurstiness(tk: Toolkit, text: string): (r: real)
    ensures r >= 0.0
    ensures |tk.sentTokenize(text)| < 2 ==> r == 0.0
  {
    var lengths := AsReals(SentenceLengths(tk, tk.sentTokenize(text)));
    if |lengths| < 2 then 0.0
    else
      var m := Mean(lengths);
      if m > 0.0 then
        // variance / mean ** 2, dividing by the mean twice
        var perMean := PopVariance(lengths) / m;
        QuotientNonNegative(PopVariance(lengths), m);
        QuotientNonNegative(perMean, m);
        perMean / m
      else 0.0
  }

  /** With two or more sentences and a positive mean length, burstiness is
      `variance / mean ** 2`: it is the one number that, multiplied by the
      squared mean, gives the variance. */
  lemma BurstinessIsVarianceOverSquaredMean(tk: Toolkit, text: string, b: real)
    requires |tk.sentTokenize(text)| >= 2
    requires Mean(AsReals(SentenceLengths(tk, tk.sentTokenize(text)))) > 0.0
    ensures var lengths := AsReals(SentenceLengths(tk, tk.sentTokenize(text)));
      SentenceBurstiness(tk, text) == b <==> b * Mean(lengths) * Mean(lengths) == PopVariance(lengths)
  {
    var lengths := AsReals(SentenceLengths(tk, tk.sentTokenize(text)));
    OverSquare(PopVariance(lengths), Mean(lengths), b);
  }

  /** Sentences that all have the same length are not bursty at all. */
  lemma UniformSentencesNotBursty(tk: Toolkit, text: string, len: nat)
    requires forall s :: s in tk.sentTokenize(text) ==> |tk.wordTokenize(s)| == len
    ensures SentenceBurstiness(tk, text) == 0.0
  {
    var sentences := tk.sentTokenize(text);
    var lengths := AsReals(SentenceLengths(tk, sentences));
    if |lengths| >= 2 {
      forall i | 0 <= i < |lengths| ensures lengths[i] == len as real {
        assert sentences[i] in sentences;
      }
      ConstantSeries(lengths, len as real);
    }
  }

  // ---------------------------------------------------------------------------
  // analyze_text

  const PerplexityScale: real := 100.0
  const BurstinessScale: real := 2.0
  const PerplexityWeight: real := 0.6
  const BurstinessWeight: real := 0.4

  function Min(a: real, b: real): real
  {
    if a <= b then a else b
  }

  /** `min(perplexity / 100, 1.0)`; an infinite perplexity gives 1.0. */
  function NormalizedPerplexity(p: Extended): (r: real)
    ensures r <= 1.0
    ensures p.Infinite? ==> r == 1.0
    ensures p.Finite? && p.value >= PerplexityScale ==> r == 1.0
    ensures p.Finite? && p.value <= PerplexityScale ==> r == p.value / PerplexityScale
  {
    match p
    case Infinite => 1.0
    case Finite(v) => Min(v / PerplexityScale, 1.0)
  }

  /** `min(burstiness / 2, 1.0)`. */
  function NormalizedBurstiness(b: real): (r: real)
    ensures r <= 1.0
    ensures b >= BurstinessScale ==> r == 1.0
    ensures b <= BurstinessScale ==> r == b / BurstinessScale
  {
    Min(b / BurstinessScale, 1.0)
  }

  /** `max(0, min(1, x))`. */
  function Clamp(x: real): (r: real)
    ensures 0.0 <= r <= 1.0
    ensures 0.0 <= x <= 1.0 ==> r == x
  {
    if x < 0.0 then 0.0 else if x > 1.0 then 1.0 else x
  }

  /** The blended AI proportion of a perplexity and a burstiness. */
  function AiProportion(p: Extended, b: real): (r: real)
    ensures 0.0 <= r <= 1.0
  {
    Clamp(PerplexityWeight * (1.0 - NormalizedPerplexity(p)) + BurstinessWeight * (1.0 - NormalizedBurstiness(b)))
  }

  /** The proportion never rises when the perplexity or the burstiness
      grows. */
  lemma AiProportionMonotone(p1: Extended, p2: Extended, b1: real, b2: real)
    requires AtMost(p1, p2) && b1 <= b2
    ensures AiProportion(p2, b2) <= AiProportion(p1, b1)
  {
    assert NormalizedPerplexity(p1) <= NormalizedPerplexity(p2);
    assert NormalizedBurstiness(b1) <= NormalizedBurstiness(b2);
  }

  /** A perplexity of at least 100 with a burstiness of at least 2 gives a
      proportion of 0. */
  lemma AiProportionZero(p: Extended, b: real)
    requires AtMost(Finite(PerplexityScale), p) && b >= BurstinessScale
    ensures AiProportion(p, b) == 0.0
  {
  }

  /** Inside the unclamped range the proportion is the plain linear blend
      `1 - 0.006 · perplexity - 0.2 · burstiness`. */
  lemma AiProportionLinear(v: real, b: real)
    requires 0.0 <= v <= PerplexityScale && 0.0 <= b <= BurstinessScale
    ensures AiProportion(Finite(v), b) == 1.0 - 0.006 * v - 0.2 * b
  {
    var x := PerplexityWeight * (1.0 - v / PerplexityScale) + BurstinessWeight * (1.0 - b / BurstinessScale);
    assert x == 1.0 - 0.006 * v - 0.2 * b;
  }

  /** `analyze_text(text)`: the bigram perplexity, the burstiness and their
      blend. */
  method AnalyzeText(tk: Toolkit, num: Numerics, text: string) returns (perplexity: Extended, burstiness: real, aiProportion: real)
    ensures perplexity == Perplexity(Tokens(tk, text), BigramSize, num)
    ensures burstiness == SentenceBurstiness(tk, text)
    ensures aiProportion == AiProportion(perplexity, burstiness)
    ensures 0.0 <= aiProportion <= 1.0
  {
    perplexity := CalculatePerplexity(tk, num, text, BigramSize);
    burstiness := SentenceBurstiness(tk, text);
    var normalizedPerplexity := NormalizedPerplexity(perplexity);
    var normalizedBurstiness := NormalizedBurstiness(burstiness);
    aiProportion := PerplexityWeight * (1.0 - normalizedPerplexity) + BurstinessWeight * (1.0 - normalizedBurstiness);
    aiProportion := Clamp(aiProportion);
  }
}
