/** Python's `set(xs)` and `collections.Counter`, with the two orderings the
    detectors read from it: `Counter.most_common(k)` and
    `sorted(d.items(), key=count, reverse=True)[:k]`. */
module Tally {

  /** `set(xs)`. */
  function Distinct<T(==)>(s: seq<T>): set<T>
  {
    set x | x in s
  }

  /** A sequence has at least one and at most as many distinct elements as it
      has elements. */
  lemma {:induction false} DistinctBounds<T>(s: seq<T>)
    ensures |Distinct(s)| <= |s|
    ensures |s| > 0 ==> |Distinct(s)| >= 1
  {
    if s != [] {
      var p := s[..|s| - 1];
      DistinctBounds(p);
      assert s == p + [s[|s| - 1]];
      assert Distinct(s) == Distinct(p) + {s[|s| - 1]};
      assert s[0] in Distinct(s);
    }
  }

  // ---------------------------------------------------------------------------
  // A Counter: (key, count) entries in order of first occurrence.

  function Total<T>(es: seq<(T, nat)>): nat
  {
    if es == [] then 0 else es[0].1 + Total(es[1..])
  }

  function Keys<T(==)>(es: seq<(T, nat)>): set<T>
  {
    set i | 0 <= i < |es| :: es[i].0
  }

  predicate DistinctKeys<T(==)>(es: seq<(T, nat)>)
  {
    forall i, j :: 0 <= i < j < |es| ==> es[i].0 != es[j].0
  }

  predicate Positive<T>(es: seq<(T, nat)>)
  {
    forall i :: 0 <= i < |es| ==> es[i].1 >= 1
  }

  /** `counter[x]`: the count stored for `x`, 0 for a missing key. */
  function Lookup<T(==)>(es: seq<(T, nat)>, x: T): nat
  {
    if es == [] then 0 else if es[0].0 == x then es[0].1 else Lookup(es[1..], x)
  }

  lemma {:induction false} TotalAppend<T>(a: seq<(T, nat)>, b: seq<(T, nat)>)
    ensures Total(a + b) == Total(a) + Total(b)
  {
    if a == [] {
      assert a + b == b;
    } else {
      assert (a + b)[1..] == a[1..] + b;
      TotalAppend(a[1..], b);
    }
  }

  lemma KeysCons<T>(es: seq<(T, nat)>)
    requires es != []
    ensures Keys(es) == {es[0].0} + Keys(es[1..])
  {
    forall k | k in Keys(es) ensures k in {es[0].0} + Keys(es[1..]) {
      var i :| 0 <= i < |es| && es[i].0 == k;
      if i > 0 { assert es[1..][i - 1].0 == k; }
    }
    forall k | k in Keys(es[1..]) ensures k in Keys(es) {
      var i :| 0 <= i < |es[1..]| && es[1..][i].0 == k;
      assert es[i + 1].0 == k;
    }
  }

  /** Distinct keys: one entry per key. */
  lemma {:induction false} KeysCard<T>(es: seq<(T, nat)>)
    requires DistinctKeys(es)
    ensures |Keys(es)| == |es|
  {
    if es != [] {
      KeysCons(es);
      KeysCard(es[1..]);
      assert es[0].0 !in Keys(es[1..]);
    }
  }

  /** `counter[x] += 1`: increments the entry of `x`, or appends `(x, 1)`. */
  function Bump<T(==)>(es: seq<(T, nat)>, x: T): (r: seq<(T, nat)>)
    ensures Total(r) == Total(es) + 1
  {
    if es == [] then [(x, 1)]
    else if es[0].0 == x then
      assert ([(x, es[0].1 + 1)] + es[1..])[1..] == es[1..];
      [(x, es[0].1 + 1)] + es[1..]
    else
      var r := [es[0]] + Bump(es[1..], x);
      assert r[1..] == Bump(es[1..], x);
      r
  }

  lemma {:induction false} BumpKeys<T>(es: seq<(T, nat)>, x: T)
    ensures Keys(Bump(es, x)) == Keys(es) + {x}
  {
    if es != [] {
      var r := Bump(es, x);
      KeysCons(es);
      KeysCons(r);
      if es[0].0 == x {
        assert r[1..] == es[1..];
      } else {
        assert r[1..] == Bump(es[1..], x);
        BumpKeys(es[1..], x);
      }
    }
  }

  /** Distinct keys, one entry at a time. */
  lemma DistinctKeysCons<T>(e: (T, nat), es: seq<(T, nat)>)
    ensures DistinctKeys([e] + es) <==> e.0 !in Keys(es) && DistinctKeys(es)
  {
    var r := [e] + es;
    if DistinctKeys(r) {
      forall i, j | 0 <= i < j < |es| ensures es[i].0 != es[j].0 {
        assert es[i] == r[i + 1] && es[j] == r[j + 1];
      }
      assert DistinctKeys(es);
      forall i | 0 <= i < |es| ensures es[i].0 != e.0 {
        assert r[0] == e && r[i + 1] == es[i];
      }
    }
    if e.0 !in Keys(es) && DistinctKeys(es) {
      forall i, j | 0 <= i < j < |r| ensures r[i].0 != r[j].0 {
        assert r[j] == es[j - 1];
        if i > 0 {
          assert r[i] == es[i - 1];
        } else {
          assert r[i] == e;
          assert es[j - 1].0 in Keys(es);
        }
      }
      assert DistinctKeys(r);
    }
  }

  lemma {:induction false} BumpInvariant<T>(es: seq<(T, nat)>, x: T)
    requires DistinctKeys(es) && Positive(es)
    ensures DistinctKeys(Bump(es, x)) && Positive(Bump(es, x))
  {
    if es != [] {
      var tail := es[1..];
      assert es == [es[0]] + tail;
      DistinctKeysCons(es[0], tail);
      var r := Bump(es, x);
      if es[0].0 == x {
        var head := (x, es[0].1 + 1);
        assert r == [head] + tail;
        DistinctKeysCons(head, tail);
        forall i | 0 < i < |r| ensures r[i].1 >= 1 {
          assert r[i] == es[i];
        }
      } else {
        var rest := Bump(tail, x);
        assert r == [es[0]] + rest;
        BumpInvariant(tail, x);
        BumpKeys(tail, x);
        DistinctKeysCons(es[0], rest);
        forall i | 0 < i < |r| ensures r[i].1 >= 1 {
          assert r[i] == rest[i - 1];
        }
      }
    }
  }

  lemma {:induction false} BumpLookup<T>(es: seq<(T, nat)>, x: T, y: T)
    ensures Lookup(Bump(es, x), y) == Lookup(es, y) + (if y == x then 1 else 0)
  {
    if es != [] && es[0].0 != x {
      BumpLookup(es[1..], x, y);
    }
  }

  /** `Counter(s)`: every distinct element of `s` with its number of
      occurrences, in order of first occurrence. */
  function Counter<T(==)>(s: seq<T>): (es: seq<(T, nat)>)
    ensures DistinctKeys(es) && Positive(es)
    ensures Total(es) == |s|
    ensures Keys(es) == Distinct(s)
    ensures |es| == |Distinct(s)|
  {
    if s == [] then []
    else
      var p := s[..|s| - 1];
      assert s == p + [s[|s| - 1]];
      assert Distinct(s) == Distinct(p) + {s[|s| - 1]};
      var es := Bump(Counter(p), s[|s| - 1]);
      BumpKeys(Counter(p), s[|s| - 1]);
      BumpInvariant(Counter(p), s[|s| - 1]);
      KeysCard(es);
      es
  }

  /** `Counter(s)[y] == s.count(y)`. */
  lemma {:induction false} CounterLookup<T>(s: seq<T>, y: T)
    ensures Lookup(Counter(s), y) == multiset(s)[y]
  {
    if s != [] {
      var p := s[..|s| - 1];
      assert s == p + [s[|s| - 1]];
      CounterLookup(p, y);
      BumpLookup(Counter(p), s[|s| - 1], y);
    }
  }

  // ---------------------------------------------------------------------------
  // Ordering by count.

  /** The first entry whose count is largest. */
  function FirstMaxIndex<T>(es: seq<(T, nat)>): (m: nat)
    requires |es| > 0
    ensures m < |es|
    ensures forall j :: 0 <= j < |es| ==> es[j].1 <= es[m].1
    ensures forall j :: 0 <= j < m ==> es[j].1 < es[m].1
  {
    if |es| == 1 then 0
    else
      var m := FirstMaxIndex(es[..|es| - 1]);
      if es[|es| - 1].1 > es[m].1 then |es| - 1 else m
  }

  function RemoveAt<T>(s: seq<T>, i: nat): (r: seq<T>)
    requires i < |s|
    ensures |r| == |s| - 1
  {
    s[..i] + s[i + 1..]
  }

  lemma {:induction false} TotalRemoveAt<T>(es: seq<(T, nat)>, i: nat)
    requires i < |es|
    ensures Total(es) == es[i].1 + Total(RemoveAt(es, i))
  {
    if i == 0 {
      assert RemoveAt(es, i) == es[1..];
    } else {
      var r := RemoveAt(es, i);
      assert r == [es[0]] + RemoveAt(es[1..], i - 1);
      assert r[1..] == RemoveAt(es[1..], i - 1);
      TotalRemoveAt(es[1..], i - 1);
    }
  }

  /** The first `k` entries of `es` stably sorted by descending count: what
      `sorted(es, key=count, reverse=True)[:k]`, `heapq.nlargest(k, es,
      key=count)` and `Counter.most_common(k)` return. Taking the first entry of
      largest count, again and again, builds exactly that prefix. */
  function TopK<T>(es: seq<(T, nat)>, k: nat): (r: seq<(T, nat)>)
    ensures |r| == if k < |es| then k else |es|
    decreases k
  {
    if k == 0 || es == [] then []
    else
      var m := FirstMaxIndex(es);
      [es[m]] + TopK(RemoveAt(es, m), k - 1)
  }

  /** The entries `TopK` keeps count no more than all of them, exactly all of
      them when it keeps every entry, and something when the counts are
      positive. */
  lemma {:induction false} TopKTotal<T>(es: seq<(T, nat)>, k: nat)
    ensures Total(TopK(es, k)) <= Total(es)
    ensures |es| <= k ==> Total(TopK(es, k)) == Total(es)
    ensures k > 0 && |es| > 0 && Positive(es) ==> Total(TopK(es, k)) > 0
    decreases k
  {
    if k > 0 && es != [] {
      var m := FirstMaxIndex(es);
      var rest := RemoveAt(es, m);
      var tail := TopK(rest, k - 1);
      var r := TopK(es, k);
      assert r == [es[m]] + tail;
      assert r[1..] == tail;
      assert Total(r) == es[m].1 + Total(tail);
      TopKTotal(rest, k - 1);
      TotalRemoveAt(es, m);
    }
  }

  /** An entry of `RemoveAt(es, m)` is an entry of `es`. */
  lemma RemoveAtIndex<T>(s: seq<T>, i: nat, j: nat)
    requires i < |s| && j < |s| - 1
    ensures RemoveAt(s, i)[j] == if j < i then s[j] else s[j + 1]
  {
  }

  lemma RemovedFrom<T>(es: seq<(T, nat)>, m: nat, e: (T, nat))
    requires m < |es| && e in RemoveAt(es, m)
    ensures e in es
  {
    var j :| 0 <= j < |es| - 1 && RemoveAt(es, m)[j] == e;
    RemoveAtIndex(es, m, j);
  }

  /** Every entry `TopK` returns is an entry of its input. */
  lemma {:induction false} TopKMembers<T>(es: seq<(T, nat)>, k: nat, e: (T, nat))
    requires e in TopK(es, k)
    ensures e in es
    decreases k
  {
    assert k > 0 && es != [];
    var m := FirstMaxIndex(es);
    var rest := RemoveAt(es, m);
    assert TopK(es, k) == [es[m]] + TopK(rest, k - 1);
    if e != es[m] {
      assert e in TopK(rest, k - 1);
      TopKMembers(rest, k - 1, e);
      RemovedFrom(es, m, e);
    }
  }

  /** How many times `x` occurs in `s`. */
  function Occurrences<T(==)>(s: seq<T>, x: T): nat
  {
    if s == [] then 0 else (if s[0] == x then 1 else 0) + Occurrences(s[1..], x)
  }

  lemma {:induction false} OccurrencesMultiset<T>(s: seq<T>, x: T)
    ensures Occurrences(s, x) == multiset(s)[x]
  {
    if s != [] {
      assert s == [s[0]] + s[1..];
      OccurrencesMultiset(s[1..], x);
    }
  }

  /** Removing one entry removes one occurrence of exactly that entry. */
  lemma {:induction false} OccurrencesRemoveAt<T>(s: seq<T>, i: nat, x: T)
    requires i < |s|
    ensures Occurrences(s, x) == Occurrences(RemoveAt(s, i), x) + (if s[i] == x then 1 else 0)
  {
    if i == 0 {
      assert RemoveAt(s, i) == s[1..];
    } else {
      var r := RemoveAt(s, i);
      assert r == [s[0]] + RemoveAt(s[1..], i - 1);
      assert r[1..] == RemoveAt(s[1..], i - 1);
      OccurrencesRemoveAt(s[1..], i - 1, x);
    }
  }

  /** An element that occurs in `s` sits at some index of it. */
  lemma {:induction false} OccursAt<T>(s: seq<T>, x: T) returns (i: nat)
    requires Occurrences(s, x) > 0
    ensures i < |s| && s[i] == x
  {
    if s[0] == x {
      i := 0;
    } else {
      var i' := OccursAt(s[1..], x);
      i := i' + 1;
    }
  }

  /** `TopK` keeps no entry more often than it occurs in its input. */
  lemma {:induction false} TopKOccurrences<T>(es: seq<(T, nat)>, k: nat, x: (T, nat))
    ensures Occurrences(TopK(es, k), x) <= Occurrences(es, x)
    decreases k
  {
    if k > 0 && es != [] {
      var m := FirstMaxIndex(es);
      var r := TopK(es, k);
      assert r == [es[m]] + TopK(RemoveAt(es, m), k - 1);
      assert r[1..] == TopK(RemoveAt(es, m), k - 1);
      TopKOccurrences(RemoveAt(es, m), k - 1, x);
      OccurrencesRemoveAt(es, m, x);
    }
  }

  /** An entry `es[i]` that `TopK` keeps fewer times than it occurs counts no
      more than any entry `TopK` keeps. */
  lemma {:induction false} TopKDominatesAt<T>(es: seq<(T, nat)>, k: nat, i: nat, j: nat)
    requires i < |es| && j < |TopK(es, k)|
    requires Occurrences(TopK(es, k), es[i]) < Occurrences(es, es[i])
    ensures es[i].1 <= TopK(es, k)[j].1
    decreases k
  {
    var m := FirstMaxIndex(es);
    var r := TopK(es, k);
    assert r == [es[m]] + TopK(RemoveAt(es, m), k - 1);
    if j > 0 {
      assert r[1..] == TopK(RemoveAt(es, m), k - 1);
      OccurrencesRemoveAt(es, m, es[i]);
      var i' := OccursAt(RemoveAt(es, m), es[i]);
      TopKDominatesAt(RemoveAt(es, m), k - 1, i', j - 1);
    }
  }

  /** `TopK` keeps the most common entries: what it keeps is drawn from its
      input, and every entry it leaves out counts no more than any entry it
      keeps. */
  lemma TopKDominates<T>(es: seq<(T, nat)>, k: nat)
    ensures multiset(TopK(es, k)) <= multiset(es)
    ensures forall e, t :: e in multiset(es) - multiset(TopK(es, k)) && t in TopK(es, k) ==> e.1 <= t.1
  {
    var r := TopK(es, k);
    forall x | x in multiset(r) ensures multiset(r)[x] <= multiset(es)[x] {
      TopKOccurrences(es, k, x);
      OccurrencesMultiset(r, x);
      OccurrencesMultiset(es, x);
    }
    forall e, t | e in multiset(es) - multiset(r) && t in r ensures e.1 <= t.1 {
      OccurrencesMultiset(r, e);
      OccurrencesMultiset(es, e);
      var i := OccursAt(es, e);
      var j :| 0 <= j < |r| && r[j] == t;
      TopKDominatesAt(es, k, i, j);
    }
  }

  /** `TopK` lists its entries by non-increasing count. */
  lemma {:induction false} TopKSorted<T>(es: seq<(T, nat)>, k: nat)
    ensures forall i, j :: 0 <= i < j < |TopK(es, k)| ==> TopK(es, k)[i].1 >= TopK(es, k)[j].1
    decreases k
  {
    if k > 0 && es != [] {
      var m := FirstMaxIndex(es);
      var rest := RemoveAt(es, m);
      var tail := TopK(rest, k - 1);
      var r := TopK(es, k);
      assert r == [es[m]] + tail;
      TopKSorted(rest, k - 1);
      forall j | 0 < j < |r| ensures r[0].1 >= r[j].1 {
        assert r[j] == tail[j - 1];
        TopKMembers(rest, k - 1, r[j]);
        RemovedFrom(es, m, r[j]);
      }
    }
  }

  /** Stable order on entry positions: `i` sorts before `j` when its count is
      larger, or equal and it came first. */
  predicate Ahead<T>(es: seq<(T, nat)>, i: nat, j: nat)
    requires i < |es| && j < |es|
  {
    es[i].1 > es[j].1 || (es[i].1 == es[j].1 && i < j)
  }

  /** The two entries `TopK(es, 2)` picks are the first and the second of the
      stable descending order: ties keep their original order. */
  lemma TopTwoIsStable<T>(es: seq<(T, nat)>) returns (a: nat, b: nat)
    requires |es| >= 2
    ensures a < |es| && b < |es| && a != b
    ensures TopK(es, 2) == [es[a], es[b]]
    ensures forall j :: 0 <= j < |es| && j != a ==> Ahead(es, a, j)
    ensures forall j :: 0 <= j < |es| && j != a && j != b ==> Ahead(es, b, j)
  {
    a := FirstMaxIndex(es);
    var rest := RemoveAt(es, a);
    var m := FirstMaxIndex(rest);
    b := if m < a then m else m + 1;
    RemoveAtIndex(es, a, m);
    var top1 := TopK(rest, 1);
    assert top1 == [rest[m]] + TopK(RemoveAt(rest, m), 0);
    assert TopK(es, 2) == [es[a]] + top1;
    forall j | 0 <= j < |es| && j != a && j != b ensures Ahead(es, b, j) {
      var j' := if j < a then j else j - 1;
      RemoveAtIndex(es, a, j');
    }
  }
}
