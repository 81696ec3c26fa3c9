/** Python string operations used by the detectors: case mapping, substring
    search, `str.split(sep)`, `str.join`, `str.split()` and `str.strip()`. */
module Strings {
  import opened Wrappers

  /** The Unicode-dependent character classes of Python's `re` and `str`:
      `\w`, `\s` (also `str.isspace`), `str.isalpha` per character, and the
      per-character case mapping of `str.lower`. */
  datatype CharClasses = CharClasses(
    isWord: char -> bool,
    isSpace: char -> bool,
    isAlpha: char -> bool,
    lower: char -> char)

  /** `s.lower()`, one character at a time. */
  function Lower(cc: CharClasses, s: string): (r: string)
    ensures |r| == |s|
  {
    seq(|s|, i requires 0 <= i < |s| => cc.lower(s[i]))
  }

  /** `w.isalpha()`: non-empty and every character alphabetic. */
  predicate IsAlphaWord(cc: CharClasses, w: string)
  {
    |w| > 0 && forall i :: 0 <= i < |w| ==> cc.isAlpha(w[i])
  }

  /** `part` occurs in `text` starting at position `i`. */
  predicate MatchAt(text: string, part: string, i: int)
  {
    0 <= i && i + |part| <= |text| && text[i..i + |part|] == part
  }

  /** `part in text`. */
  predicate Contains(text: string, part: string)
  {
    exists i :: 0 <= i <= |text| && MatchAt(text, part, i)
  }

  lemma MatchAtTail(s: string, part: string, j: int)
    requires |s| > 0 && 0 <= j
    ensures MatchAt(s, part, j + 1) <==> MatchAt(s[1..], part, j)
  {
    if j + 1 + |part| <= |s| {
      var t := s[1..];
      assert s[j + 1..j + 1 + |part|] == t[j..j + |part|];
    }
  }

  predicate StartsWith(s: string, prefix: string)
  {
    |prefix| <= |s| && s[..|prefix|] == prefix
  }

  predicate EndsWith(s: string, suffix: string)
  {
    |suffix| <= |s| && s[|s| - |suffix|..] == suffix
  }

  /** `s.find(sep)`, as an option: the first position where `sep` occurs. */
  function IndexOf(s: string, sep: string): (r: Option<nat>)
    requires |sep| > 0
    ensures r.Some? ==> MatchAt(s, sep, r.value)
    ensures r.Some? ==> forall j :: 0 <= j < r.value ==> !MatchAt(s, sep, j)
    ensures r.None? <==> !Contains(s, sep)
    decreases |s|
  {
    if |s| < |sep| then None
    else if s[..|sep|] == sep then assert MatchAt(s, sep, 0); Some(0)
    else
      match IndexOf(s[1..], sep)
      case None =>
        forall j | 0 < j <= |s| ensures !MatchAt(s, sep, j) {
          MatchAtTail(s, sep, j - 1);
        }
        None
      case Some(i) =>
        MatchAtTail(s, sep, i);
        forall j | 1 <= j <= i ensures !MatchAt(s, sep, j) {
          MatchAtTail(s, sep, j - 1);
        }
        assert MatchAt(s, sep, i + 1);
        Some(i + 1)
  }

  /** `s.split(sep)` for a non-empty separator (Python raises on an empty one):
      the pieces between the non-overlapping occurrences of `sep`, left to right. */
  function Split(s: string, sep: string): (r: seq<string>)
    requires |sep| > 0
    ensures |r| >= 1
    decreases |s|
  {
    match IndexOf(s, sep)
    case None => [s]
    case Some(i) => [s[..i]] + Split(s[i + |sep|..], sep)
  }

  /** `sep.join(pieces)`. */
  function Join(pieces: seq<string>, sep: string): string
  {
    if |pieces| == 0 then ""
    else if |pieces| == 1 then pieces[0]
    else pieces[0] + sep + Join(pieces[1..], sep)
  }

  /** Joining the pieces of a split with the same separator gives back the
      original string. */
  lemma {:induction false} JoinSplit(s: string, sep: string)
    requires |sep| > 0
    ensures Join(Split(s, sep), sep) == s
    decreases |s|
  {
    match IndexOf(s, sep)
    case None =>
    case Some(i) =>
      var head, rest := s[..i], s[i + |sep|..];
      var tail := Split(rest, sep);
      assert Split(s, sep) == [head] + tail;
      JoinSplit(rest, sep);
      JoinCons(head, tail, sep);
      Reassemble(s, i, i + |sep|);
  }

  /** Cutting a string at two positions and gluing the parts gives it back. */
  lemma Reassemble(s: string, i: nat, j: nat)
    requires i <= j <= |s|
    ensures s == s[..i] + s[i..j] + s[j..]
  {
  }

  lemma JoinCons(head: string, tail: seq<string>, sep: string)
    requires |tail| >= 1
    ensures Join([head] + tail, sep) == head + sep + Join(tail, sep)
  {
    var pieces := [head] + tail;
    assert pieces[0] == head && pieces[1..] == tail;
  }

  /** A string that does not contain the separator splits into itself alone. */
  lemma SplitWithoutSeparator(s: string, sep: string)
    requires |sep| > 0 && !Contains(s, sep)
    ensures Split(s, sep) == [s]
  {
  }

  /** No piece of a split contains the separator. */
  lemma {:induction false} SplitPiecesLackSeparator(s: string, sep: string)
    requires |sep| > 0
    ensures forall p :: p in Split(s, sep) ==> !Contains(p, sep)
    decreases |s|
  {
    match IndexOf(s, sep)
    case None =>
    case Some(i) =>
      var rest := s[i + |sep|..];
      SplitPiecesLackSeparator(rest, sep);
      PrefixLacksSeparator(s, sep, i);
      assert Split(s, sep) == [s[..i]] + Split(rest, sep);
  }

  /** A prefix that ends before the first occurrence of `sep` does not contain it. */
  lemma PrefixLacksSeparator(s: string, sep: string, i: nat)
    requires |sep| > 0 && i <= |s|
    requires forall j :: 0 <= j < i ==> !MatchAt(s, sep, j)
    ensures !Contains(s[..i], sep)
  {
    forall j | 0 <= j <= i ensures !MatchAt(s[..i], sep, j) {
      if j + |sep| <= i {
        assert !MatchAt(s, sep, j);
        assert s[..i][j..j + |sep|] == s[j..j + |sep|];
      }
    }
  }

  /** No proper suffix of `sep` is also a prefix of it, so an occurrence of
      `sep` cannot overlap the end of a piece and the separator after it. */
  predicate Unbordered(sep: string)
  {
    forall k :: 0 < k < |sep| ==> sep[k..] != sep[..|sep| - k]
  }

  /** In `p + sep + rest`, with `p` free of `sep`, the first `sep` is the one
      after `p`. */
  lemma FirstSeparatorAfter(p: string, sep: string, rest: string)
    requires |sep| > 0 && Unbordered(sep) && !Contains(p, sep)
    ensures IndexOf(p + sep + rest, sep) == Some(|p|)
  {
    var s := p + sep + rest;
    var n := |sep|;
    assert s[|p|..|p| + n] == sep;
    assert MatchAt(s, sep, |p|);
    forall j | 0 <= j < |p| ensures !MatchAt(s, sep, j) {
      if j + n <= |p| {
        assert s[j..j + n] == p[j..j + n];
        assert !MatchAt(p, sep, j);
      } else {
        var k := |p| - j;
        assert s[j..j + n][k..] == s[|p|..j + n];
        assert s[|p|..j + n] == sep[..n - k];
        assert sep[k..] != sep[..n - k];
      }
    }
    var r := IndexOf(s, sep);
    assert r.Some?;
  }

  /** For an unbordered separator, splitting a join of separator-free pieces
      gives the pieces back. */
  lemma {:induction false} SplitJoin(ps: seq<string>, sep: string)
    requires |sep| > 0 && Unbordered(sep) && |ps| >= 1
    requires forall p :: p in ps ==> !Contains(p, sep)
    ensures Split(Join(ps, sep), sep) == ps
    decreases |ps|
  {
    if |ps| == 1 {
      SplitWithoutSeparator(ps[0], sep);
    } else {
      var p, tail := ps[0], ps[1..];
      assert ps == [p] + tail;
      var rest := Join(tail, sep);
      var s := Join(ps, sep);
      JoinCons(p, tail, sep);
      FirstSeparatorAfter(p, sep, rest);
      assert s[..|p|] == p;
      assert s[|p| + |sep|..] == rest;
      assert Split(s, sep) == [p] + Split(rest, sep);
      assert forall q :: q in tail ==> q in ps;
      SplitJoin(tail, sep);
    }
  }

  /** Every character of `s` is whitespace (this includes the empty string). */
  predicate Blank(cc: CharClasses, s: string)
  {
    forall i :: 0 <= i < |s| ==> cc.isSpace(s[i])
  }

  /** Length of the leading run of non-whitespace characters. */
  function WordRun(cc: CharClasses, s: string): (n: nat)
    ensures n <= |s|
    ensures forall i :: 0 <= i < n ==> !cc.isSpace(s[i])
    ensures n < |s| ==> cc.isSpace(s[n])
  {
    if s == [] || cc.isSpace(s[0]) then 0 else 1 + WordRun(cc, s[1..])
  }

  /** `s.split()`: the maximal runs of non-whitespace characters. */
  function SplitWhitespace(cc: CharClasses, s: string): (r: seq<string>)
    ensures forall i :: 0 <= i < |r| ==> |r[i]| > 0
    ensures forall i, j :: 0 <= i < |r| && 0 <= j < |r[i]| ==> !cc.isSpace(r[i][j])
    decreases |s|
  {
    if s == [] then []
    else if cc.isSpace(s[0]) then SplitWhitespace(cc, s[1..])
    else
      var n := WordRun(cc, s);
      [s[..n]] + SplitWhitespace(cc, s[n..])
  }

  /** `s.split()` is empty exactly when `s` holds nothing but whitespace. */
  lemma {:induction false} SplitWhitespaceEmpty(cc: CharClasses, s: string)
    ensures SplitWhitespace(cc, s) == [] <==> Blank(cc, s)
    decreases |s|
  {
    if s != [] && cc.isSpace(s[0]) {
      SplitWhitespaceEmpty(cc, s[1..]);
      assert Blank(cc, s) <==> Blank(cc, s[1..]) by {
        assert forall i :: 1 <= i < |s| ==> s[i] == s[1..][i - 1];
      }
    }
  }

  /** The number of maximal runs of non-whitespace characters in `s`, read
      left to right; `afterSpace` says whether the character before `s` was
      whitespace (or there was none). */
  function Runs(cc: CharClasses, s: string, afterSpace: bool): nat
  {
    if s == [] then 0
    else (if afterSpace && !cc.isSpace(s[0]) then 1 else 0) + Runs(cc, s[1..], cc.isSpace(s[0]))
  }

  /** Inside a word, no run starts. */
  lemma {:induction false} RunsInsideWord(cc: CharClasses, s: string, m: nat)
    requires m <= |s| && forall i :: 0 <= i < m ==> !cc.isSpace(s[i])
    ensures Runs(cc, s, false) == Runs(cc, s[m..], false)
  {
    if m > 0 {
      assert forall i :: 0 <= i < m - 1 ==> s[1..][i] == s[i + 1];
      RunsInsideWord(cc, s[1..], m - 1);
      assert s[1..][m - 1..] == s[m..];
    }
  }

  /** `s.split()` has one word per maximal run of non-whitespace characters. */
  lemma {:induction false} SplitWhitespaceCountsRuns(cc: CharClasses, s: string)
    ensures |SplitWhitespace(cc, s)| == Runs(cc, s, true)
    decreases |s|
  {
    if s != [] {
      if cc.isSpace(s[0]) {
        SplitWhitespaceCountsRuns(cc, s[1..]);
      } else {
        var n := WordRun(cc, s);
        assert n >= 1;
        var rest := s[n..];
        SplitWhitespaceCountsRuns(cc, rest);
        assert forall i :: 0 <= i < n - 1 ==> s[1..][i] == s[i + 1];
        RunsInsideWord(cc, s[1..], n - 1);
        assert s[1..][n - 1..] == rest;
        assert Runs(cc, rest, false) == Runs(cc, rest, true);
      }
    }
  }

  /** `s.lstrip()`: the suffix of `s` after its leading whitespace. */
  function TrimStart(cc: CharClasses, s: string): (r: string)
    ensures r == [] <==> Blank(cc, s)
    ensures r != [] ==> !cc.isSpace(r[0])
    ensures |r| <= |s|
  {
    if s != [] && cc.isSpace(s[0]) then
      assert forall i :: 1 <= i < |s| ==> s[i] == s[1..][i - 1];
      TrimStart(cc, s[1..])
    else s
  }

  /** `s.rstrip()`: the prefix of `s` before its trailing whitespace. */
  function TrimEnd(cc: CharClasses, s: string): (r: string)
    ensures r == [] <==> Blank(cc, s)
    ensures |r| <= |s| && r == s[..|r|]
    ensures r != [] ==> !cc.isSpace(r[|r| - 1])
  {
    if s != [] && cc.isSpace(s[|s| - 1]) then
      var r := TrimEnd(cc, s[..|s| - 1]);
      assert s[..|s| - 1][..|r|] == s[..|r|];
      r
    else s
  }

  /** `lstrip` drops only leading whitespace: what is left is a suffix of `s`. */
  lemma {:induction false} TrimStartSuffix(cc: CharClasses, s: string)
    ensures var r := TrimStart(cc, s);
      && |r| <= |s| && r == s[|s| - |r|..]
      && forall i :: 0 <= i < |s| - |r| ==> cc.isSpace(s[i])
  {
    if s != [] && cc.isSpace(s[0]) {
      TrimStartSuffix(cc, s[1..]);
      var r := TrimStart(cc, s[1..]);
      assert s[1..][|s| - 1 - |r|..] == s[|s| - |r|..];
      assert forall i :: 1 <= i < |s| - |r| ==> s[i] == s[1..][i - 1];
    }
  }

  /** `rstrip` drops only trailing whitespace. */
  lemma {:induction false} TrimEndDropsSpace(cc: CharClasses, s: string)
    ensures forall i :: |TrimEnd(cc, s)| <= i < |s| ==> cc.isSpace(s[i])
  {
    if s != [] && cc.isSpace(s[|s| - 1]) {
      TrimEndDropsSpace(cc, s[..|s| - 1]);
    }
  }

  /** The number of leading whitespace characters of `s`. */
  function LeadingSpace(cc: CharClasses, s: string): nat
  {
    |s| - |TrimStart(cc, s)|
  }

  /** `s.strip()`: the slice of `s` between its leading and its trailing
      whitespace. */
  function Strip(cc: CharClasses, s: string): (r: string)
    ensures r == [] <==> Blank(cc, s)
    ensures r != [] ==> !cc.isSpace(r[0]) && !cc.isSpace(r[|r| - 1])
  {
    TrimEnd(cc, TrimStart(cc, s))
  }

  /** The stripped string is the slice of `s` that starts after the leading
      whitespace, and only whitespace follows it. */
  lemma StripSlice(cc: CharClasses, s: string)
    ensures var r := Strip(cc, s); var k := LeadingSpace(cc, s);
      && k + |r| <= |s|
      && r == s[k..k + |r|]
      && (forall i :: 0 <= i < k ==> cc.isSpace(s[i]))
      && (forall i :: k + |r| <= i < |s| ==> cc.isSpace(s[i]))
  {
    var t := TrimStart(cc, s);
    TrimStartSuffix(cc, s);
    TrimEndDropsSpace(cc, t);
    TrimmedSlice(cc, s, t, TrimEnd(cc, t));
  }

  /** Trimming the end of the suffix `t` of `s` leaves a slice of `s`,
      followed in `s` only by what was trimmed. */
  lemma TrimmedSlice(cc: CharClasses, s: string, t: string, r: string)
    requires |t| <= |s| && t == s[|s| - |t|..]
    requires |r| <= |t| && r == t[..|r|]
    requires forall i :: |r| <= i < |t| ==> cc.isSpace(t[i])
    ensures r == s[|s| - |t|..|s| - |t| + |r|]
    ensures forall i :: |s| - |t| + |r| <= i < |s| ==> cc.isSpace(s[i])
  {
    var k := |s| - |t|;
    assert forall i :: k + |r| <= i < |s| ==> s[i] == t[i - k];
  }
}
