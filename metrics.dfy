/** The word-level metrics of the `AIDetector` classes in test3.py and
    test4.py (the two files share these methods line for line): lexical
    diversity, moving-average type-token ratio, frequency burstiness, the
    n-gram pseudo-perplexity, top-word, stopword and sentence statistics. */
module Metrics {
  import opened Strings
  import opened Cleaning
  import opened Tally
  import opened Stats
  import opened Nlp

  /** The minimum number of alphabetic words `extract_features` accepts. */
  const MinimumWords: nat := 10

  /** `[word.lower() for word in tokens if word.isalpha()]`. */
  function AlphabeticWords(cc: CharClasses, tokens: seq<string>): (r: seq<string>)
    ensures |r| <= |tokens|
    ensures forall i :: 0 <= i < |r| ==> |r[i]| > 0
  {
    if tokens == [] then []
    else (if IsAlphaWord(cc, tokens[0]) then [Lower(cc, tokens[0])] else []) + AlphabeticWords(cc, tokens[1..])
  }

  /** The text after `re.sub(r'[^\w\s\.\?\!]', '', text)`. */
  function CleanText(tk: Toolkit, text: string): string
  {
    Clean(tk.chars, WordSpaceTerminators, text)
  }

  /** The lower-cased alphabetic words of the cleaned text. */
  function DetectorWords(tk: Toolkit, text: string): seq<string>
  {
    AlphabeticWords(tk.chars, tk.wordTokenize(CleanText(tk, text)))
  }

  /** `len(set(words)) / len(words)`: the lexical diversity, or type-token ratio. */
  function TypeTokenRatio(words: seq<string>): (r: real)
    requires |words| > 0
    ensures 0.0 < r <= 1.0
    ensures 1.0 / |words| as real <= r
  {
    DistinctBounds(words);
    Proportion(|Distinct(words)|, |words|);
    |Distinct(words)| as real / |words| as real
  }

  /** A count of at most n out of n is a proportion: between 0 and 1, at least
      1/n when the count is positive, and 1 when it is n. */
  lemma Proportion(a: nat, n: nat)
    requires 0 < n && a <= n
    ensures 0.0 <= a as real / n as real <= 1.0
    ensures 1 <= a ==> 0.0 < 1.0 / n as real <= a as real / n as real
    ensures a == n ==> a as real / n as real == 1.0
  {
    var d := n as real;
    assert a as real / d * d == a as real;
  }

  // ---------------------------------------------------------------------------
  // calculate_mattr

  /** The type-token ratio of every window of `window` consecutive words. */
  function WindowRatios(words: seq<string>, window: nat): (r: seq<real>)
    requires 0 < window <= |words|
    ensures |r| == |words| - window + 1
    ensures forall i :: 0 <= i < |r| ==> 1.0 / window as real <= r[i] <= 1.0
  {
    var r := seq(|words| - window + 1, i requires 0 <= i <= |words| - window =>
      TypeTokenRatio(words[i..i + window]));
    assert forall i :: 0 <= i < |r| ==> 1.0 / window as real <= r[i] <= 1.0 by {
      forall i | 0 <= i < |r| ensures 1.0 / window as real <= r[i] <= 1.0 {
        var slice := words[i..i + window];
        assert |slice| == window;
        assert r[i] == TypeTokenRatio(slice);
      }
    }
    r
  }

  /** The moving-average type-token ratio: the mean of the window ratios, or
      the plain type-token ratio when no whole window fits. */
  function Mattr(words: seq<string>, window: nat): (r: real)
    requires |words| > 0 && window > 0
    ensures 0.0 < r <= 1.0
  {
    if |words| < window then TypeTokenRatio(words)
    else
      var ratios := WindowRatios(words, window);
      MeanBounds(ratios, 1.0 / window as real, 1.0, true);
      assert 0.0 < 1.0 / window as real;
      Mean(ratios)
  }

  /** `calculate_mattr(words, window_size)`. */
  method CalculateMattr(words: seq<string>, window: nat) returns (r: real)
    requires |words| > 0 && window > 0
    ensures r == Mattr(words, window)
    ensures |words| < window ==> r == TypeTokenRatio(words)
    ensures |words| >= window ==> r == Mean(WindowRatios(words, window))
    ensures 0.0 < r <= 1.0
  {
    if |words| < window {
      return |Distinct(words)| as real / |words| as real;
    }
    var ratios: seq<real> := [];
    var i := 0;
    while i < |words| - window + 1
      invariant 0 <= i <= |words| - window + 1
      invariant ratios == WindowRatios(words, window)[..i]
    {
      var slice := words[i..i + window];
      ratios := ratios + [|Distinct(slice)| as real / window as real];
      i := i + 1;
    }
    assert ratios == WindowRatios(words, window);
    r := Sum(ratios) / |ratios| as real;
  }

  // ---------------------------------------------------------------------------
  // calculate_simple_perplexity

  /** The n-grams `calculate_simple_perplexity` builds: `words[i:i+n]` for `i`
      in `range(len(words) - n)`. */
  function PerplexityNGrams(words: seq<string>, n: nat): (r: seq<seq<string>>)
    requires |words| >= n
    ensures |r| == |words| - n
  {
    seq(|words| - n, i requires 0 <= i < |words| - n => words[i..i + n])
  }

  /** Every run of `n` consecutive tokens, what `zip(*[tokens[i:] for i in
      range(n)])` yields: `max(0, len(tokens) - n + 1)` of them for n >= 1, none
      for n = 0. */
  function AllNGrams(tokens: seq<string>, n: nat): (r: seq<seq<string>>)
    ensures n > 0 ==> |r| == if |tokens| < n then 0 else |tokens| - n + 1
    ensures forall i :: 0 <= i < |r| ==> i + n <= |tokens| && r[i] == tokens[i..i + n]
  {
    if n == 0 || |tokens| < n then []
    else seq(|tokens| - n + 1, i requires 0 <= i <= |tokens| - n => tokens[i..i + n])
  }

  /** `calculate_simple_perplexity` builds one n-gram fewer than there are: it
      leaves out the last run of `n` words. */
  lemma PerplexityNGramsDropLast(words: seq<string>, n: nat)
    requires n > 0 && |words| >= n + 1
    ensures |PerplexityNGrams(words, n)| == |AllNGrams(words, n)| - 1
    ensures PerplexityNGrams(words, n) == AllNGrams(words, n)[..|AllNGrams(words, n)| - 1]
  {
  }

  const Epsilon: real := 0.0000000001

  /** `-sum(p * log2(p + 1e-10))` over the counts, accumulated in order, with
      `p = count / total`. */
  function Entropy<T>(counts: seq<(T, nat)>, total: nat, num: Numerics): real
    requires total > 0
  {
    if counts == [] then 0.0
    else
      var p := counts[|counts| - 1].1 as real / total as real;
      Entropy(counts[..|counts| - 1], total, num) - p * num.log2(p + Epsilon)
  }

  /** The value of `calculate_simple_perplexity(words, n)`: 0 below n + 1
      words, otherwise 2 to the entropy of the n-gram distribution. */
  function PseudoPerplexity(words: seq<string>, n: nat, num: Numerics): real
  {
    if |words| < n + 1 then 0.0
    else num.pow2(Entropy(Counter(PerplexityNGrams(words, n)), |words| - n, num))
  }

  /** `calculate_simple_perplexity(words, n)`. */
  method SimplePerplexity(words: seq<string>, n: nat, num: Numerics) returns (r: real)
    ensures |words| < n + 1 ==> r == 0.0
    ensures |words| >= n + 1 ==> r == num.pow2(Entropy(Counter(PerplexityNGrams(words, n)), |words| - n, num))
    ensures r == PseudoPerplexity(words, n, num)
  {
    if |words| < n + 1 {
      return 0.0;
    }
    var ngrams := CollectNGrams(words, n);
    var entropy := EntropyOf(Counter(ngrams), |ngrams|, num);
    r := num.pow2(entropy);
  }

  /** The loop that collects `tuple(words[i:i+n])` for `i` in
      `range(len(words) - n)`. */
  method CollectNGrams(words: seq<string>, n: nat) returns (ngrams: seq<seq<string>>)
    requires |words| >= n
    ensures ngrams == PerplexityNGrams(words, n)
  {
    ngrams := [];
    var i := 0;
    while i < |words| - n
      invariant 0 <= i <= |words| - n
      invariant ngrams == PerplexityNGrams(words, n)[..i]
    {
      ngrams := ngrams + [words[i..i + n]];
      i := i + 1;
    }
  }

  /** The loop `entropy -= p * math.log2(p + 1e-10)` over the counts. */
  method EntropyOf<T>(counts: seq<(T, nat)>, total: nat, num: Numerics) returns (entropy: real)
    requires total > 0
    ensures entropy == Entropy(counts, total, num)
  {
    entropy := 0.0;
    var j := 0;
    while j < |counts|
      invariant 0 <= j <= |counts|
      invariant entropy == Entropy(counts[..j], total, num)
    {
      var p := counts[j].1 as real / total as real;
      assert counts[..j + 1][..j] == counts[..j];
      entropy := entropy - p * num.log2(p + Epsilon);
      j := j + 1;
    }
    assert counts[..j] == counts;
  }

  // ---------------------------------------------------------------------------
  // calculate_burstiness

  /** The counts of a Counter, in order. */
  function Frequencies<T>(es: seq<(T, nat)>): (r: seq<real>)
    ensures |r| == |es|
    ensures forall i :: 0 <= i < |r| ==> r[i] >= 0.0
  {
    seq(|es|, i requires 0 <= i < |es| => es[i].1 as real)
  }

  lemma DispersionBounds(s: real, m: real)
    requires s >= 0.0 && m > 0.0
    ensures -1.0 <= (s - m) / (s + m) < 1.0
  {
    var d := s + m;
    assert (s - m) / d * d == s - m;
  }

  /** `calculate_burstiness(words)`: (std - mean) / (std + mean) of the word
      frequencies, 0 below two words or for a zero mean. */
  function FrequencyBurstiness(words: seq<string>, num: Numerics): (r: real)
    requires SqrtNonNegative(num)
    ensures |words| < 2 ==> r == 0.0
    ensures -1.0 <= r < 1.0
  {
    if |words| < 2 then 0.0
    else
      DistinctBounds(words);
      var freqs := Frequencies(Counter(words));
      var mean := Mean(freqs);
      var std := num.sqrt(PopVariance(freqs));
      MeanBounds(freqs, 0.0, 0.0, false);
      if mean == 0.0 then 0.0
      else
        DispersionBounds(std, mean);
        (std - mean) / (std + mean)
  }

  // ---------------------------------------------------------------------------
  // Frequency and stopword ratios

  /** How many of the words the ten most common distinct words account for:
      at least one, at most all, and all of them when there are at most ten
      distinct words. */
  function TopWordCount(words: seq<string>): (t: nat)
    requires |words| > 0
    ensures 1 <= t <= |words|
    ensures |Distinct(words)| <= 10 ==> t == |words|
  {
    var counts := Counter(words);
    DistinctBounds(words);
    TopKTotal(counts, 10);
    Total(TopK(counts, 10))
  }

  /** `sum(count for word, count in Counter(words).most_common(10)) / len(words)`. */
  function TopWordRatio(words: seq<string>): (r: real)
    requires |words| > 0
    ensures 0.0 < r <= 1.0
    ensures |Distinct(words)| <= 10 ==> r == 1.0
  {
    var t := TopWordCount(words);
    Proportion(t, |words|);
    t as real / |words| as real
  }

  /** `sum(1 for word in words if word in vocabulary)`. */
  function MemberCount(words: seq<string>, vocabulary: set<string>): (n: nat)
    ensures n <= |words|
    ensures (forall i :: 0 <= i < |words| ==> words[i] !in vocabulary) ==> n == 0
    ensures (forall i :: 0 <= i < |words| ==> words[i] in vocabulary) ==> n == |words|
  {
    if words == [] then 0
    else (if words[0] in vocabulary then 1 else 0) + MemberCount(words[1..], vocabulary)
  }

  function StopwordRatio(words: seq<string>, stopWords: set<string>): (r: real)
    requires |words| > 0
    ensures 0.0 <= r <= 1.0
  {
    Proportion(MemberCount(words, stopWords), |words|);
    MemberCount(words, stopWords) as real / |words| as real
  }

  function TotalLength(words: seq<string>): (n: nat)
    ensures (forall i :: 0 <= i < |words| ==> |words[i]| > 0) ==> n >= |words|
  {
    if words == [] then 0 else |words[0]| + TotalLength(words[1..])
  }

  /** `sum(len(word) for word in words) / word_count`. */
  function AvgWordLength(words: seq<string>): (r: real)
    requires |words| > 0
    ensures (forall i :: 0 <= i < |words| ==> |words[i]| > 0) ==> r >= 1.0
  {
    TotalLength(words) as real / |words| as real
  }

  // ---------------------------------------------------------------------------
  // Sentence statistics

  /** `[len(word_tokenize(s)) for s in sentences]`. */
  function SentenceLengths(tk: Toolkit, sentences: seq<string>): (r: seq<nat>)
    ensures |r| == |sentences|
  {
    seq(|sentences|, i requires 0 <= i < |sentences| => |tk.wordTokenize(sentences[i])|)
  }

  /** `np.var(sentence_lengths) if len(sentences) > 1 else 0`. */
  function SentenceLengthVariance(lengths: seq<nat>): (r: real)
    ensures r >= 0.0
    ensures |lengths| <= 1 ==> r == 0.0
  {
    if |lengths| > 1 then PopVariance(AsReals(lengths)) else 0.0
  }
}
