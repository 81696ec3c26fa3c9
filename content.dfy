/** `classify_content` and `extract_technical_terms` of the detector in
    test4.py: keyword-based topic categories and adjacent adjective/noun or
    noun/noun pairs. */
module Content {
  import opened Strings
  import opened Tally

  datatype Category = Category(name: string, keywords: seq<string>)

  /** The five categories with their five keywords each, in dictionary order. */
  const Categories: seq<Category> := [
    Category("Technology", ["algorithm", "programming", "software", "hardware", "system"]),
    Category("Science", ["research", "study", "experiment", "theory", "analysis"]),
    Category("Business", ["market", "business", "finance", "investment", "strategy"]),
    Category("Education", ["learning", "education", "teaching", "student", "school"]),
    Category("Health", ["medical", "health", "disease", "treatment", "patient"])
  ]

  const Fallback: string := "General"

  /** How many of the keywords occur as substrings of the text. */
  function KeywordScore(text: string, keywords: seq<string>): (n: nat)
    ensures n <= |keywords|
  {
    if keywords == [] then 0
    else
      KeywordScore(text, keywords[..|keywords| - 1])
        + (if Contains(text, keywords[|keywords| - 1]) then 1 else 0)
  }

  /** The score counts every keyword that occurs: it is the number of keywords
      exactly when all occur, and 0 exactly when none does. */
  lemma {:induction false} KeywordScoreExtremes(text: string, keywords: seq<string>)
    ensures KeywordScore(text, keywords) == |keywords| <==> forall i :: 0 <= i < |keywords| ==> Contains(text, keywords[i])
    ensures KeywordScore(text, keywords) == 0 <==> forall i :: 0 <= i < |keywords| ==> !Contains(text, keywords[i])
  {
    if keywords != [] {
      var p := keywords[..|keywords| - 1];
      KeywordScoreExtremes(text, p);
      assert forall i :: 0 <= i < |p| ==> p[i] == keywords[i];
    }
  }

  /** `scores` after the keyword loop: (category, score) in dictionary order. */
  function KeywordScores(text: string): (r: seq<(string, nat)>)
    ensures |r| == |Categories|
    ensures forall i :: 0 <= i < |r| ==> r[i].0 == Categories[i].name && r[i].1 <= 5
  {
    seq(|Categories|, i requires 0 <= i < |Categories| =>
      (Categories[i].name, KeywordScore(text, Categories[i].keywords)))
  }

  /** The names among the entries with a positive score, in order. */
  function PositiveNames(es: seq<(string, nat)>): (r: seq<string>)
    ensures |r| <= |es|
  {
    if es == [] then []
    else (if es[0].1 > 0 then [es[0].0] else []) + PositiveNames(es[1..])
  }

  /** The two best-scoring categories that scored at all, or "General". */
  function Classification(scores: seq<(string, nat)>): (r: seq<string>)
    ensures 1 <= |r| <= 2
  {
    var top := PositiveNames(TopK(scores, 2));
    if top == [] then [Fallback] else top
  }

  /** The categories are exactly the first and second of the stable
      descending order of scores, each kept only when its score is positive;
      when neither is, the result is "General". */
  lemma ClassificationOrder(scores: seq<(string, nat)>) returns (a: nat, b: nat)
    requires |scores| >= 2
    ensures a < |scores| && b < |scores| && a != b
    ensures forall j :: 0 <= j < |scores| && j != a ==> Ahead(scores, a, j)
    ensures forall j :: 0 <= j < |scores| && j != a && j != b ==> Ahead(scores, b, j)
    ensures scores[a].1 == 0 ==> Classification(scores) == [Fallback]
    ensures scores[a].1 > 0 && scores[b].1 == 0 ==> Classification(scores) == [scores[a].0]
    ensures scores[a].1 > 0 && scores[b].1 > 0 ==> Classification(scores) == [scores[a].0, scores[b].0]
  {
    a, b := TopTwoIsStable(scores);
    var top := [scores[a], scores[b]];
    assert top[1..] == [scores[b]];
    assert PositiveNames(top) == (if scores[a].1 > 0 then [scores[a].0] else []) + PositiveNames([scores[b]]);
    assert PositiveNames([scores[b]]) == (if scores[b].1 > 0 then [scores[b].0] else []);
    if scores[a].1 == 0 {
      assert scores[b].1 == 0 by {
        assert Ahead(scores, a, b);
      }
    }
  }

  /** "General" comes back exactly when no keyword of any category occurs. */
  lemma GeneralWhenNoKeyword(text: string)
    ensures Classification(KeywordScores(text)) == [Fallback]
      <==> forall i :: 0 <= i < |Categories| ==> KeywordScore(text, Categories[i].keywords) == 0
  {
    var scores := KeywordScores(text);
    var a, b := ClassificationOrder(scores);
    if scores[a].1 > 0 {
      assert Classification(scores)[0] == Categories[a].name;
    }
    if scores[a].1 == 0 {
      forall i | 0 <= i < |Categories| ensures KeywordScore(text, Categories[i].keywords) == 0 {
        if i != a {
          assert Ahead(scores, a, i);
        }
      }
    }
  }

  /** `classify_content(text)`. */
  method ClassifyContent(cc: CharClasses, text: string) returns (r: seq<string>)
    ensures r == Classification(KeywordScores(Lower(cc, text)))
    ensures 1 <= |r| <= 2
  {
    var textLower := Lower(cc, text);
    var scores: seq<(string, nat)> := seq(|Categories|, i requires 0 <= i < |Categories| => (Categories[i].name, 0));
    var c := 0;
    while c < |Categories|
      invariant 0 <= c <= |Categories| && |scores| == |Categories|
      invariant forall j :: 0 <= j < c ==> scores[j] == KeywordScores(textLower)[j]
      invariant forall j :: c <= j < |Categories| ==> scores[j] == (Categories[j].name, 0)
    {
      var terms := Categories[c].keywords;
      var k := 0;
      while k < |terms|
        invariant 0 <= k <= |terms| && |scores| == |Categories|
        invariant forall j :: 0 <= j < c ==> scores[j] == KeywordScores(textLower)[j]
        invariant forall j :: c < j < |Categories| ==> scores[j] == (Categories[j].name, 0)
        invariant scores[c] == (Categories[c].name, KeywordScore(textLower, terms[..k]))
      {
        assert terms[..k + 1][..k] == terms[..k];
        if Contains(textLower, terms[k]) {
          scores := scores[c := (scores[c].0, scores[c].1 + 1)];
        }
        k := k + 1;
      }
      assert terms[..k] == terms;
      c := c + 1;
    }
    assert scores == KeywordScores(textLower);
    var top := TopK(scores, 2);
    r := PositiveNames(top);
    if r == [] {
      r := [Fallback];
    }
    assert |top| == 2;
  }

  // ---------------------------------------------------------------------------
  // extract_technical_terms

  /** An adjective or a noun followed by a noun (Penn Treebank tags). */
  predicate IsTermPattern(tag1: string, tag2: string)
  {
    (StartsWith(tag1, "JJ") && StartsWith(tag2, "NN")) || (StartsWith(tag1, "NN") && StartsWith(tag2, "NN"))
  }

  /** `f"{word1} {word2}"` for the tagged pair at `i` and `i + 1`. */
  function PairTerm(tags: seq<(string, string)>, i: nat): string
    requires i + 1 < |tags|
  {
    tags[i].0 + " " + tags[i + 1].0
  }

  /** The terms found among the first `k` adjacent pairs, in order. */
  function CandidatesUpTo(tags: seq<(string, string)>, k: nat): (r: seq<string>)
    requires k < |tags|
    ensures |r| <= k
  {
    if k == 0 then []
    else
      CandidatesUpTo(tags, k - 1)
        + (if IsTermPattern(tags[k - 1].1, tags[k].1) then [PairTerm(tags, k - 1)] else [])
  }

  /** `terms` after the loop over `range(len(pos_tags) - 1)`. */
  function CandidateTerms(tags: seq<(string, string)>): seq<string>
  {
    if |tags| < 2 then [] else CandidatesUpTo(tags, |tags| - 1)
  }

  /** Every candidate is the term of an adjacent pair matching the pattern. */
  lemma {:induction false} CandidateSound(tags: seq<(string, string)>, k: nat, t: string) returns (i: nat)
    requires k < |tags| && t in CandidatesUpTo(tags, k)
    ensures i < k && IsTermPattern(tags[i].1, tags[i + 1].1) && t == PairTerm(tags, i)
  {
    if t in CandidatesUpTo(tags, k - 1) {
      i := CandidateSound(tags, k - 1, t);
    } else {
      i := k - 1;
    }
  }

  /** Every adjacent pair matching the pattern yields a candidate. */
  lemma {:induction false} CandidateComplete(tags: seq<(string, string)>, k: nat, i: nat)
    requires i < k < |tags| && IsTermPattern(tags[i].1, tags[i + 1].1)
    ensures PairTerm(tags, i) in CandidatesUpTo(tags, k)
  {
    if i < k - 1 {
      CandidateComplete(tags, k - 1, i);
    }
  }

  const MaxTerms: nat := 20

  /** `s[:n]`: the first `n` elements, or all of `s` when it is shorter. */
  function Take<T>(s: seq<T>, n: nat): (r: seq<T>)
    ensures |r| == if |s| <= n then |s| else n
    ensures r == s[..|r|]
  {
    if |s| <= n then s else s[..n]
  }

  /** `set(terms[:20])`: the distinct terms among the first twenty found. */
  function TechnicalTerms(tags: seq<(string, string)>): set<string>
  {
    Distinct(Take(CandidateTerms(tags), MaxTerms))
  }

  /** At most twenty terms come back. */
  lemma TechnicalTermsBound(tags: seq<(string, string)>)
    ensures |TechnicalTerms(tags)| <= MaxTerms
  {
    DistinctBounds(Take(CandidateTerms(tags), MaxTerms));
  }

  /** Each term is the term of an adjacent pair matching the pattern. */
  lemma TechnicalTermSound(tags: seq<(string, string)>, t: string) returns (i: nat)
    requires t in TechnicalTerms(tags)
    ensures i + 1 < |tags| && IsTermPattern(tags[i].1, tags[i + 1].1) && t == PairTerm(tags, i)
  {
    assert t in CandidateTerms(tags);
    i := CandidateSound(tags, |tags| - 1, t);
  }

  /** The terms found among fewer pairs are a prefix of those found among
      more. */
  lemma {:induction false} CandidatesPrefix(tags: seq<(string, string)>, k: nat, m: nat)
    requires k <= m < |tags|
    ensures |CandidatesUpTo(tags, k)| <= |CandidatesUpTo(tags, m)|
    ensures CandidatesUpTo(tags, k) == CandidatesUpTo(tags, m)[..|CandidatesUpTo(tags, k)|]
  {
    if k < m {
      CandidatesPrefix(tags, k, m - 1);
      var a := CandidatesUpTo(tags, m - 1);
      assert CandidatesUpTo(tags, m)[..|a|] == a;
    }
  }

  /** Each of the first twenty terms found is returned. */
  lemma TechnicalTermsFirst(tags: seq<(string, string)>, j: nat)
    requires j < MaxTerms && j < |CandidateTerms(tags)|
    ensures CandidateTerms(tags)[j] in TechnicalTerms(tags)
  {
    assert Take(CandidateTerms(tags), MaxTerms)[j] == CandidateTerms(tags)[j];
  }

  /** A matching pair's term comes back whenever fewer than twenty terms were
      found among the pairs before it (in particular, whenever at most twenty
      were found in all). */
  lemma TechnicalTermsComplete(tags: seq<(string, string)>, i: nat)
    requires i + 1 < |tags| && IsTermPattern(tags[i].1, tags[i + 1].1)
    requires |CandidatesUpTo(tags, i)| < MaxTerms
    ensures PairTerm(tags, i) in TechnicalTerms(tags)
  {
    var before := CandidatesUpTo(tags, i);
    CandidatesPrefix(tags, i + 1, |tags| - 1);
    assert CandidatesUpTo(tags, i + 1)[|before|] == PairTerm(tags, i);
    TechnicalTermsFirst(tags, |before|);
  }

  /** Twenty terms are returned only once twenty were found: when at most
      twenty were found, the precondition above holds for every pair. */
  lemma {:induction false} FewCandidatesBefore(tags: seq<(string, string)>, i: nat)
    requires i + 1 < |tags| && IsTermPattern(tags[i].1, tags[i + 1].1)
    requires |CandidateTerms(tags)| <= MaxTerms
    ensures |CandidatesUpTo(tags, i)| < MaxTerms
  {
    CandidatesPrefix(tags, i + 1, |tags| - 1);
  }

  /** `extract_technical_terms(text)`, given the part-of-speech tags of the
      text's tokens. */
  method ExtractTechnicalTerms(tags: seq<(string, string)>) returns (r: set<string>)
    ensures r == TechnicalTerms(tags)
  {
    var terms: seq<string> := [];
    if |tags| >= 2 {
      var i := 0;
      while i < |tags| - 1
        invariant 0 <= i <= |tags| - 1
        invariant terms == CandidatesUpTo(tags, i)
      {
        var (word1, tag1) := tags[i];
        var (word2, tag2) := tags[i + 1];
        if (StartsWith(tag1, "JJ") && StartsWith(tag2, "NN")) || (StartsWith(tag1, "NN") && StartsWith(tag2, "NN")) {
          terms := terms + [word1 + " " + word2];
        }
        i := i + 1;
      }
    }
    var first := if |terms| <= MaxTerms then terms else terms[..MaxTerms];
    r := set t | t in first;
  }
}
