/** The pieces every additive scorer shares: counting the criteria that hold,
    the `"k/max"` score text and the label. */
module Scoring {

  /** The number of criteria that hold; each adds exactly one point. */
  function CountTrue(cs: seq<bool>): (n: nat)
    ensures n <= |cs|
  {
    if cs == [] then 0 else (if cs[0] then 1 else 0) + CountTrue(cs[1..])
  }

  /** Turning one failing criterion into a passing one, the others unchanged,
      raises the score by exactly one. */
  lemma {:induction false} FlipAddsOne(cs: seq<bool>, i: nat)
    requires i < |cs| && !cs[i]
    ensures CountTrue(cs[i := true]) == CountTrue(cs) + 1
  {
    if i > 0 {
      assert cs[i := true][1..] == cs[1..][i - 1 := true];
      FlipAddsOne(cs[1..], i - 1);
    } else {
      assert cs[i := true][1..] == cs[1..];
    }
  }

  /** The point one criterion contributes. */
  function Point(c: bool): nat
  {
    if c then 1 else 0
  }

  /** Seven criteria score the sum of their points. */
  lemma CountSeven(cs: seq<bool>)
    requires |cs| == 7
    ensures CountTrue(cs) == Point(cs[0]) + Point(cs[1]) + Point(cs[2]) + Point(cs[3])
      + Point(cs[4]) + Point(cs[5]) + Point(cs[6])
  {
    var s1 := cs[1..];
    var s2 := s1[1..];
    var s3 := s2[1..];
    var s4 := s3[1..];
    var s5 := s4[1..];
    var s6 := s5[1..];
    assert s6[1..] == [];
    assert CountTrue(s6) == Point(cs[6]);
    assert CountTrue(s5) == Point(cs[5]) + CountTrue(s6);
    assert CountTrue(s4) == Point(cs[4]) + CountTrue(s5);
    assert CountTrue(s3) == Point(cs[3]) + CountTrue(s4);
    assert CountTrue(s2) == Point(cs[2]) + CountTrue(s3);
    assert CountTrue(s1) == Point(cs[1]) + CountTrue(s2);
  }

  /** With seven criteria, `score / 7 > 0.6` holds exactly when five or more
      criteria hold. */
  lemma ConfidenceAboveSixTenths(k: nat)
    requires k <= 7
    ensures (k as real / 7.0 > 0.6) <==> k >= 5
  {
  }

  function Digit(d: nat): (c: char)
    requires d < 10
  {
    ('0' as int + d) as char
  }

  /** `str(n)`. */
  function Decimal(n: nat): (s: string)
    ensures |s| >= 1
    ensures forall i :: 0 <= i < |s| ==> '0' <= s[i] <= '9'
  {
    if n < 10 then [Digit(n)] else Decimal(n / 10) + [Digit(n % 10)]
  }

  /** `int(s)` for a string of decimal digits. */
  function ParseDecimal(s: string): nat
  {
    if s == [] then 0
    else
      var d := s[|s| - 1] as int - '0' as int;
      ParseDecimal(s[..|s| - 1]) * 10 + (if 0 <= d < 10 then d else 0)
  }

  lemma {:induction false} DecimalRoundTrip(n: nat)
    ensures ParseDecimal(Decimal(n)) == n
  {
    if n >= 10 {
      DecimalRoundTrip(n / 10);
      var s := Decimal(n);
      assert s[..|s| - 1] == Decimal(n / 10);
    }
  }

  /** The reported score, `f"{score}/{max_score}"`. */
  function ScoreText(score: nat, maxScore: nat): string
  {
    Decimal(score) + "/" + Decimal(maxScore)
  }

  /** The position of the first `c` in `s`, or `|s|` when there is none. */
  function FindChar(s: string, c: char): (i: nat)
    ensures i <= |s|
  {
    if s == [] then 0 else if s[0] == c then 0 else 1 + FindChar(s[1..], c)
  }

  lemma {:induction false} FindCharAfter(p: string, rest: string, c: char)
    requires forall i :: 0 <= i < |p| ==> p[i] != c
    ensures FindChar(p + rest, c) == |p| + FindChar(rest, c)
  {
    if p != [] {
      assert (p + rest)[1..] == p[1..] + rest;
      FindCharAfter(p[1..], rest, c);
    } else {
      assert p + rest == rest;
    }
  }

  /** Reads back the score and the maximum from a score text. */
  function ParseScoreText(s: string): (nat, nat)
  {
    var i := FindChar(s, '/');
    if i < |s| then (ParseDecimal(s[..i]), ParseDecimal(s[i + 1..])) else (ParseDecimal(s), 0)
  }

  /** The score text can be read back into the score and the maximum. */
  lemma ScoreTextRoundTrip(score: nat, maxScore: nat)
    ensures ParseScoreText(ScoreText(score, maxScore)) == (score, maxScore)
  {
    var a, b := Decimal(score), Decimal(maxScore);
    var s := ScoreText(score, maxScore);
    assert s == a + ("/" + b);
    FindCharAfter(a, "/" + b, '/');
    assert s[..|a|] == a;
    assert s[|a| + 1..] == b;
    DecimalRoundTrip(score);
    DecimalRoundTrip(maxScore);
  }

  /** `"AI" if ai_generated else "Human"`. */
  function Label(aiGenerated: bool): string
  {
    if aiGenerated then "AI" else "Human"
  }
}
