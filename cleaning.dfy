/** The regular-expression cleaning the detectors apply before tokenising:
    `re.sub(r'[^\w\s\.\?\!]', '', text)` in test3.py and test4.py, and
    `re.sub(r'[^\w\s]', '', text)` in TEST2.py. */
module Cleaning {
  import opened Strings

  /** The two character classes whose complement is deleted. */
  datatype Pattern =
    | WordSpaceTerminators  // keeps \w, \s, '.', '?' and '!'
    | WordSpace             // keeps \w and \s

  predicate Allowed(cc: CharClasses, p: Pattern, c: char)
  {
    cc.isWord(c) || cc.isSpace(c) || (p.WordSpaceTerminators? && (c == '.' || c == '?' || c == '!'))
  }

  /** Deletes every character outside the pattern's class, keeping the order
      of the rest. */
  function Clean(cc: CharClasses, p: Pattern, s: string): (r: string)
    ensures |r| <= |s|
    ensures forall i :: 0 <= i < |r| ==> Allowed(cc, p, r[i])
  {
    if s == [] then []
    else if Allowed(cc, p, s[0]) then [s[0]] + Clean(cc, p, s[1..])
    else Clean(cc, p, s[1..])
  }

  /** Cleaning keeps every occurrence of an allowed character and drops every
      occurrence of any other. */
  lemma {:induction false} CleanCounts(cc: CharClasses, p: Pattern, s: string, c: char)
    ensures multiset(Clean(cc, p, s))[c] == if Allowed(cc, p, c) then multiset(s)[c] else 0
  {
    if s != [] {
      CleanCounts(cc, p, s[1..], c);
      assert s == [s[0]] + s[1..];
      assert multiset(s) == multiset([s[0]]) + multiset(s[1..]);
    }
  }

  /** `a` can be obtained from `b` by deleting characters. */
  predicate IsSubsequence(a: string, b: string)
  {
    if a == [] then true
    else if b == [] then false
    else if a[0] == b[0] then IsSubsequence(a[1..], b[1..])
    else IsSubsequence(a, b[1..])
  }

  /** Cleaning only deletes characters: the result is a subsequence of the input. */
  lemma {:induction false} CleanIsSubsequence(cc: CharClasses, p: Pattern, s: string)
    ensures IsSubsequence(Clean(cc, p, s), s)
  {
    if s != [] {
      CleanIsSubsequence(cc, p, s[1..]);
      if !Allowed(cc, p, s[0]) {
        SubsequenceOfTail(Clean(cc, p, s[1..]), s);
      }
    }
  }

  lemma {:induction false} SubsequenceOfTail(a: string, b: string)
    requires b != [] && IsSubsequence(a, b[1..])
    ensures IsSubsequence(a, b)
    decreases |a| + |b|
  {
    if a != [] && a[0] == b[0] {
      // a[1..] is a subsequence of a, hence of b[1..]
      SubsequenceDropFirst(a, b[1..]);
    }
  }

  lemma {:induction false} SubsequenceDropFirst(a: string, b: string)
    requires a != [] && IsSubsequence(a, b)
    ensures IsSubsequence(a[1..], b)
    decreases |a| + |b|
  {
    assert b != [];
    if a[0] == b[0] {
      if a[1..] != [] {
        SubsequenceOfTail(a[1..], b);
      }
    } else {
      SubsequenceDropFirst(a, b[1..]);
      if a[1..] != [] {
        SubsequenceOfTail(a[1..], b);
      }
    }
  }

  /** A string whose characters are all allowed is left unchanged. */
  lemma {:induction false} CleanKeepsClean(cc: CharClasses, p: Pattern, s: string)
    requires forall i :: 0 <= i < |s| ==> Allowed(cc, p, s[i])
    ensures Clean(cc, p, s) == s
  {
    if s != [] {
      assert forall i :: 0 <= i < |s| - 1 ==> s[1..][i] == s[i + 1];
      CleanKeepsClean(cc, p, s[1..]);
    }
  }

  /** Cleaning is idempotent. */
  lemma CleanIdempotent(cc: CharClasses, p: Pattern, s: string)
    ensures Clean(cc, p, Clean(cc, p, s)) == Clean(cc, p, s)
  {
    CleanKeepsClean(cc, p, Clean(cc, p, s));
  }

  /** Python's `string.punctuation`. */
  const Punctuation: string := "!\"#$%&'()*+,-./:;<=>?@[\\]^_`{|}~"

  /** What Unicode's tables say of the ASCII punctuation characters: none is
      whitespace, and only '_' is a word character. */
  predicate PunctuationClassified(cc: CharClasses)
  {
    forall i :: 0 <= i < |Punctuation| ==>
      !cc.isSpace(Punctuation[i]) && (cc.isWord(Punctuation[i]) <==> Punctuation[i] == '_')
  }

  /** After the detectors' cleaning the only ASCII punctuation left is '.',
      '?', '!' and '_'. */
  lemma CleanedPunctuation(cc: CharClasses, s: string, i: nat)
    requires PunctuationClassified(cc)
    requires i < |Clean(cc, WordSpaceTerminators, s)|
    requires Clean(cc, WordSpaceTerminators, s)[i] in Punctuation
    ensures Clean(cc, WordSpaceTerminators, s)[i] in ".?!_"
  {
    var c := Clean(cc, WordSpaceTerminators, s)[i];
    var k :| 0 <= k < |Punctuation| && Punctuation[k] == c;
    assert Allowed(cc, WordSpaceTerminators, c);
  }

  /** TEST2.py's cleaning removes every '.'. */
  lemma CleanedHasNoPeriod(cc: CharClasses, s: string)
    requires PunctuationClassified(cc)
    ensures '.' !in Clean(cc, WordSpace, s)
  {
    assert Punctuation[13] == '.';
  }
}
