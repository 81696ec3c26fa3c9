/** `count_syllables` and `calculate_flesch_kincaid` of the detectors in
    test3.py and test4.py. */
module Readability {
  import opened Wrappers
  import opened Strings
  import opened Stats

  const Vowels: string := "aeiouy"

  predicate IsVowel(c: char)
  {
    c in Vowels
  }

  /** Position `i` of `w` opens a run of vowels. */
  predicate GroupStart(w: string, i: nat)
    requires i < |w|
  {
    IsVowel(w[i]) && (i == 0 || !IsVowel(w[i - 1]))
  }

  /** The number of runs of consecutive vowels in `w`. */
  function VowelGroups(w: string): (n: nat)
    ensures n <= |w|
  {
    if w == [] then 0
    else VowelGroups(w[..|w| - 1]) + (if GroupStart(w, |w| - 1) then 1 else 0)
  }

  /** The prefixes of `w` agree with `w` on where vowel runs start. */
  lemma GroupStartPrefix(w: string, k: nat, i: nat)
    requires i < k <= |w|
    ensures GroupStart(w[..k], i) == GroupStart(w, i)
  {
  }

  /** A word that ends in a vowel has at least one vowel run: the run the
      last vowel belongs to. */
  lemma {:induction false} EndsInVowelHasGroup(w: string)
    requires |w| > 0 && IsVowel(w[|w| - 1])
    ensures VowelGroups(w) >= 1
  {
    var p := w[..|w| - 1];
    if !GroupStart(w, |w| - 1) {
      assert |w| > 1 && IsVowel(w[|w| - 2]);
      assert p[|p| - 1] == w[|w| - 2];
      EndsInVowelHasGroup(p);
    }
  }

  /** A word ending in "e" has a vowel run, so the final-"e" rule never
      takes the count below zero. */
  lemma FinalEHasGroup(w: string)
    requires EndsWith(w, "e")
    ensures VowelGroups(w) >= 1
  {
    assert w[|w| - 1] == w[|w| - 1..][0] == 'e' == Vowels[1];
    EndsInVowelHasGroup(w);
  }

  /** The syllable estimate: one per vowel run, one fewer for a final "e",
      and never below one. */
  function Syllables(cc: CharClasses, word: string): (r: nat)
    requires |word| > 0
    ensures 1 <= r <= |word|
  {
    var w := Lower(cc, word);
    var groups := VowelGroups(w);
    if EndsWith(w, "e") then
      FinalEHasGroup(w);
      if groups - 1 == 0 then 1 else groups - 1
    else if groups == 0 then 1 else groups
  }

  /** `count_syllables(word)`; an empty word fails at `word[0]` (the None). */
  method CountSyllables(cc: CharClasses, word: string) returns (r: Option<nat>)
    ensures word == [] <==> r.None?
    ensures word != [] ==> r == Some(Syllables(cc, word))
  {
    var w := Lower(cc, word);
    if |w| == 0 {
      return None;
    }
    var count: int := CountVowelGroups(w);
    if EndsWith(w, "e") {
      FinalEHasGroup(w);
      count := count - 1;
    }
    if count == 0 {
      count := count + 1;
    }
    return Some(count);
  }

  /** The vowel-group loop of `count_syllables`. */
  method CountVowelGroups(w: string) returns (count: nat)
    requires |w| > 0
    ensures count == VowelGroups(w)
  {
    count := 0;
    if w[0] in Vowels {
      count := count + 1;
    }
    assert w[..1][0] == w[0];
    var index := 1;
    while index < |w|
      invariant 1 <= index <= |w|
      invariant count == VowelGroups(w[..index])
    {
      assert w[..index + 1][..index] == w[..index];
      GroupStartPrefix(w, index + 1, index);
      if w[index] in Vowels && w[index - 1] !in Vowels {
        count := count + 1;
      }
      index := index + 1;
    }
    assert w[..index] == w;
  }

  /** Lower-casing first changes nothing when case mapping is idempotent. */
  lemma SyllablesIgnoreCase(cc: CharClasses, word: string)
    requires |word| > 0
    requires forall c :: cc.lower(cc.lower(c)) == cc.lower(c)
    ensures Syllables(cc, Lower(cc, word)) == Syllables(cc, word)
  {
    assert Lower(cc, Lower(cc, word)) == Lower(cc, word);
  }

  predicate NoEmptyToken(tokens: seq<string>)
  {
    forall i :: 0 <= i < |tokens| ==> |tokens[i]| > 0
  }

  /** `sum(count_syllables(word) for word in word_tokenize(text))`. */
  function SyllableTotal(cc: CharClasses, tokens: seq<string>): (n: nat)
    requires NoEmptyToken(tokens)
    ensures |tokens| <= n
  {
    if tokens == [] then 0 else Syllables(cc, tokens[0]) + SyllableTotal(cc, tokens[1..])
  }

  const BaseScore: real := 206.835
  const SentenceWeight: real := 1.015
  const SyllableWeight: real := 84.6

  /** `calculate_flesch_kincaid(text, sentences, word_count)`, with
      `word_tokenize(text)` as `tokens`: None when a token is empty (the
      syllable count fails before the guard), 0 without words or sentences,
      otherwise the Flesch reading-ease formula. */
  function FleschKincaid(cc: CharClasses, tokens: seq<string>, sentenceCount: nat, wordCount: nat): (r: Option<real>)
    ensures r.None? <==> !NoEmptyToken(tokens)
    ensures r.Some? && (wordCount == 0 || sentenceCount == 0) ==> r.value == 0.0
    ensures r.Some? ==> r.value <= BaseScore
  {
    if !NoEmptyToken(tokens) then None
    else
      var syllables := SyllableTotal(cc, tokens);
      if wordCount == 0 || sentenceCount == 0 then Some(0.0)
      else
        var perSentence := wordCount as real / sentenceCount as real;
        var perWord := syllables as real / wordCount as real;
        QuotientNonNegative(wordCount as real, sentenceCount as real);
        QuotientNonNegative(syllables as real, wordCount as real);
        Some(BaseScore - SentenceWeight * perSentence - SyllableWeight * perWord)
  }

  lemma RatioAtLeastOne(a: nat, n: nat)
    requires 0 < n <= a
    ensures a as real / n as real >= 1.0
  {
    var d := n as real;
    assert a as real / d * d == a as real;
  }

  /** When the words counted are among the tokens (as in `extract_features`,
      which takes the alphabetic tokens of the same text), every word brings
      at least one syllable, so the score is at most 206.835 - 84.6. */
  lemma FleschKincaidCeiling(cc: CharClasses, tokens: seq<string>, sentenceCount: nat, wordCount: nat)
    requires NoEmptyToken(tokens)
    requires 0 < wordCount <= |tokens| && sentenceCount > 0
    ensures FleschKincaid(cc, tokens, sentenceCount, wordCount).Some?
    ensures FleschKincaid(cc, tokens, sentenceCount, wordCount).value <= BaseScore - SyllableWeight
  {
    var syllables := SyllableTotal(cc, tokens);
    RatioAtLeastOne(syllables, wordCount);
    QuotientNonNegative(wordCount as real, sentenceCount as real);
  }
}
