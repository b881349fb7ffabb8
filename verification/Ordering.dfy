/**
 Lexicographic order on strings, as Python compares them, and the sorting that
 the program relies on wherever it needs a canonical order: fence acquisition and
 the target list inside an event digest.
 */
module Ordering {

  /** Strict lexicographic order by code point. */
  predicate Less(a: string, b: string) {
    |b| > 0 && (|a| == 0 || a[0] < b[0] || (a[0] == b[0] && Less(a[1..], b[1..])))
  }

  /** Up to `n` the texts agree, and there the first ends or has the smaller character. */
  ghost predicate PartsAt(a: string, b: string, n: nat) {
    && n <= |a| && n < |b| && (n == |a| || a[n] < b[n])
    && forall i :: 0 <= i < n ==> a[i] == b[i]
  }

  lemma PartsFurther(a: string, b: string, n: nat)
    requires a != "" && b != "" && a[0] == b[0]
    ensures PartsAt(a[1..], b[1..], n) <==> PartsAt(a, b, n + 1)
    ensures !PartsAt(a, b, 0)
  {
    if PartsAt(a, b, n + 1) {
      forall i | 0 <= i < n ensures a[1..][i] == b[1..][i] { assert a[i + 1] == b[i + 1]; }
    }
    if PartsAt(a[1..], b[1..], n) {
      forall i | 0 <= i < n + 1 ensures a[i] == b[i] { if i > 0 { assert a[1..][i - 1] == b[1..][i - 1]; } }
    }
  }

  /** The order is told by the first difference. */
  lemma {:induction false} LessAtFirstDifference(a: string, b: string)
    ensures Less(a, b) <==> exists n: nat :: PartsAt(a, b, n)
  {
    if a != "" && b != "" && a[0] == b[0] {
      LessAtFirstDifference(a[1..], b[1..]);
      forall n: nat { PartsFurther(a, b, n); }
      if n: nat :| PartsAt(a, b, n) { PartsFurther(a, b, n - 1); }
      if n: nat :| PartsAt(a[1..], b[1..], n) { assert PartsAt(a, b, n + 1); }
    } else if Less(a, b) {
      assert PartsAt(a, b, 0);
    }
  }

  lemma {:induction false} LessIrreflexive(a: string)
    ensures !Less(a, a)
  {
    if |a| > 0 { LessIrreflexive(a[1..]); }
  }

  lemma {:induction false} LessTransitive(a: string, b: string, c: string)
    requires Less(a, b) && Less(b, c)
    ensures Less(a, c)
  {
    if |a| > 0 && a[0] == b[0] == c[0] { LessTransitive(a[1..], b[1..], c[1..]); }
  }

  lemma {:induction false} LessTotal(a: string, b: string)
    ensures a == b || Less(a, b) || Less(b, a)
  {
    if |a| > 0 && |b| > 0 && a[0] == b[0] {
      LessTotal(a[1..], b[1..]);
      assert a == [a[0]] + a[1..] && b == [b[0]] + b[1..];
    }
  }

  lemma LessAsymmetric(a: string, b: string)
    requires Less(a, b)
    ensures !Less(b, a)
  {
    if Less(b, a) {
      LessTransitive(a, b, a);
      LessIrreflexive(a);
    }
  }

  /** Nondecreasing from left to right. */
  ghost predicate Sorted(s: seq<string>) {
    forall i, j :: 0 <= i < j < |s| ==> !Less(s[j], s[i])
  }

  /** Strictly increasing from left to right. */
  ghost predicate StrictlySorted(s: seq<string>) {
    forall i, j :: 0 <= i < j < |s| ==> Less(s[i], s[j])
  }

  function Insert(x: string, s: seq<string>): seq<string> {
    if s == [] || !Less(s[0], x) then [x] + s else [s[0]] + Insert(x, s[1..])
  }

  /** Python's `sorted`. */
  function Sort(s: seq<string>): seq<string> {
    if s == [] then [] else Insert(s[0], Sort(s[1..]))
  }

  lemma {:induction false} InsertPermutes(x: string, s: seq<string>)
    ensures multiset(Insert(x, s)) == multiset(s) + multiset{x}
  {
    if s != [] && Less(s[0], x) {
      InsertPermutes(x, s[1..]);
      assert s == [s[0]] + s[1..];
    }
  }

  lemma NotLessTransitive(a: string, b: string, c: string)
    requires !Less(b, a) && !Less(c, b)
    ensures !Less(c, a)
  {
    LessTotal(a, b);
    LessTotal(b, c);
    if a != b && b != c {
      LessTransitive(a, b, c);
      LessAsymmetric(a, c);
    }
  }

  lemma {:induction false} InsertSorts(x: string, s: seq<string>)
    requires Sorted(s)
    ensures Sorted(Insert(x, s))
  {
    var r := Insert(x, s);
    if s == [] || !Less(s[0], x) {
      forall i, j | 0 <= i < j < |r| ensures !Less(r[j], r[i]) {
        if i == 0 && j > 1 { NotLessTransitive(x, s[0], s[j - 1]); }
      }
    } else {
      InsertSorts(x, s[1..]);
      InsertPermutes(x, s[1..]);
      var tail := Insert(x, s[1..]);
      LessAsymmetric(s[0], x);
      forall y | y in tail ensures !Less(y, s[0]) {
        assert y in multiset(tail);
        assert y == x || y in s[1..];
      }
    }
  }

  lemma {:induction false} SortIsSortedPermutation(s: seq<string>)
    ensures multiset(Sort(s)) == multiset(s) && Sorted(Sort(s))
  {
    if s != [] {
      SortIsSortedPermutation(s[1..]);
      InsertPermutes(s[0], Sort(s[1..]));
      InsertSorts(s[0], Sort(s[1..]));
      assert s == [s[0]] + s[1..];
    }
  }

  lemma SortedHead(a: seq<string>, x: string)
    requires Sorted(a) && x in multiset(a)
    ensures !Less(x, a[0])
  {
    assert x in a;
    var i :| 0 <= i < |a| && a[i] == x;
    if i == 0 { LessIrreflexive(x); }
  }

  lemma TailBag(a: seq<string>)
    requires a != []
    ensures multiset(a) == multiset{a[0]} + multiset(a[1..])
  {
    assert a == [a[0]] + a[1..];
  }

  /** A sorted arrangement of a bag of strings is unique. */
  lemma {:induction false} SortedUnique(a: seq<string>, b: seq<string>)
    requires Sorted(a) && Sorted(b) && multiset(a) == multiset(b)
    ensures a == b
  {
    assert |a| == |multiset(a)| == |multiset(b)| == |b|;
    if a != [] {
      SortedHead(a, b[0]);
      SortedHead(b, a[0]);
      LessTotal(a[0], b[0]);
      TailBag(a);
      TailBag(b);
      assert multiset(a[1..]) == multiset(b[1..]) by {
        assert multiset{a[0]} + multiset(a[1..]) - multiset{a[0]} == multiset(a[1..]);
      }
      assert Sorted(a[1..]) && Sorted(b[1..]);
      SortedUnique(a[1..], b[1..]);
    }
  }

  /** Sorting forgets exactly the order of its input. */
  lemma SortEqualIffPermutation(a: seq<string>, b: seq<string>)
    ensures Sort(a) == Sort(b) <==> multiset(a) == multiset(b)
  {
    SortIsSortedPermutation(a);
    SortIsSortedPermutation(b);
    if multiset(a) == multiset(b) { SortedUnique(Sort(a), Sort(b)); }
  }

  ghost predicate Distinct<T>(s: seq<T>) {
    forall i, j :: 0 <= i < j < |s| ==> s[i] != s[j]
  }

  /** Sorting distinct strings gives a strictly increasing sequence over the same elements. */
  lemma SortDistinct(s: seq<string>)
    requires Distinct(s)
    ensures StrictlySorted(Sort(s))
    ensures forall x :: x in Sort(s) <==> x in s
  {
    var r := Sort(s);
    SortIsSortedPermutation(s);
    forall x ensures x in r <==> x in s {
      assert x in r <==> x in multiset(r);
      assert x in s <==> x in multiset(s);
    }
    DistinctIsMultiplicityOne(s);
    forall i, j | 0 <= i < j < |r| ensures Less(r[i], r[j]) {
      LessTotal(r[i], r[j]);
      TwoPlacesCountTwice(r, i, j);
    }
  }

  /** Each element once. */
  function Dedup(s: seq<string>): seq<string> {
    if s == [] then [] else if s[0] in s[1..] then Dedup(s[1..]) else [s[0]] + Dedup(s[1..])
  }

  lemma {:induction false} DedupIsDistinct(s: seq<string>)
    ensures Distinct(Dedup(s)) && forall x :: x in Dedup(s) <==> x in s
  {
    if s != [] {
      DedupIsDistinct(s[1..]);
      assert forall x :: x in s <==> x == s[0] || x in s[1..];
    }
  }

  /** `sorted(set(s))`. */
  function SortedSet(s: seq<string>): seq<string> {
    Sort(Dedup(s))
  }

  lemma SortedSetIsStrict(s: seq<string>)
    ensures StrictlySorted(SortedSet(s)) && forall x :: x in SortedSet(s) <==> x in s
  {
    DedupIsDistinct(s);
    SortDistinct(Dedup(s));
  }

  lemma TwoPlacesCountTwice(r: seq<string>, i: nat, j: nat)
    requires i < j < |r|
    ensures r[i] == r[j] ==> multiset(r)[r[i]] >= 2
  {
    assert r == r[..i] + [r[i]] + r[i + 1..j] + [r[j]] + r[j + 1..];
  }

  lemma {:induction false} DistinctIsMultiplicityOne(s: seq<string>)
    requires Distinct(s)
    ensures forall x :: multiset(s)[x] <= 1
  {
    if s != [] {
      DistinctIsMultiplicityOne(s[1..]);
      assert s == [s[0]] + s[1..];
      assert s[0] !in s[1..];
      assert multiset(s) == multiset{s[0]} + multiset(s[1..]);
    }
  }

  /** Some element of a nonempty finite set is not below any other. */
  lemma {:induction false} MaximalExists(ts: set<nat>, want: map<nat, string>) returns (top: nat)
    requires ts != {} && ts <= want.Keys
    ensures top in ts && forall u :: u in ts ==> !Less(want[top], want[u])
    decreases |ts|
  {
    var t :| t in ts;
    if ts == {t} {
      top := t;
      LessIrreflexive(want[t]);
    } else {
      var rest := ts - {t};
      var r := MaximalExists(rest, want);
      if Less(want[r], want[t]) {
        top := t;
        LessAsymmetric(want[r], want[t]);
        LessIrreflexive(want[t]);
        forall u | u in rest ensures !Less(want[t], want[u]) {
          NotLessTransitive(want[u], want[r], want[t]);
        }
      } else {
        top := r;
      }
    }
  }
}
