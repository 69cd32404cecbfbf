/**
 * Lexicographic order on strings, `[...new Set(xs)]` (first occurrences kept,
 * in order) and a sort, as used by `Array.prototype.sort` with no comparator.
 */
module StringSort {

  /** `a` sorts before or equal to `b`: a prefix, or smaller at the first difference. */
  predicate LexLe(a: string, b: string)
    decreases |a|
  {
    if a == [] then true
    else if b == [] then false
    else if a[0] == b[0] then LexLe(a[1..], b[1..])
    else a[0] < b[0]
  }

  lemma {:induction false} LexLeRefl(a: string)
    ensures LexLe(a, a)
    decreases |a|
  {
    if a != [] { LexLeRefl(a[1..]); }
  }

  lemma {:induction false} LexLeTotal(a: string, b: string)
    ensures LexLe(a, b) || LexLe(b, a)
    decreases |a|
  {
    if a != [] && b != [] && a[0] == b[0] { LexLeTotal(a[1..], b[1..]); }
  }

  lemma {:induction false} LexLeAntisymmetric(a: string, b: string)
    requires LexLe(a, b) && LexLe(b, a)
    ensures a == b
    decreases |a|
  {
    if a != [] && b != [] {
      LexLeAntisymmetric(a[1..], b[1..]);
      assert a == [a[0]] + a[1..] && b == [b[0]] + b[1..];
    }
  }

  lemma {:induction false} LexLeTransitive(a: string, b: string, c: string)
    requires LexLe(a, b) && LexLe(b, c)
    ensures LexLe(a, c)
    decreases |a|
  {
    if a != [] && b != [] && c != [] && a[0] == b[0] && b[0] == c[0] {
      LexLeTransitive(a[1..], b[1..], c[1..]);
    }
  }

  predicate Sorted(s: seq<string>) {
    forall i, j :: 0 <= i < j < |s| ==> LexLe(s[i], s[j])
  }

  /** Sorted with no element twice. */
  predicate StrictlySorted(s: seq<string>) {
    forall i, j :: 0 <= i < j < |s| ==> LexLe(s[i], s[j]) && s[i] != s[j]
  }

  predicate NoDuplicates<T(==)>(s: seq<T>) {
    forall i, j :: 0 <= i < j < |s| ==> s[i] != s[j]
  }

  /**
   * `[...new Set(s)]`: the first occurrence of every element of `s`, in the
   * order of first occurrence.
   */
  function Dedup(s: seq<string>): (r: seq<string>)
    ensures NoDuplicates(r)
    ensures forall x :: x in r <==> x in s
    ensures |r| <= |s|
  {
    if s == [] then []
    else
      var d := Dedup(s[..|s| - 1]);
      assert forall x :: x in s <==> x in s[..|s| - 1] || x == s[|s| - 1];
      if s[|s| - 1] in d then d else d + [s[|s| - 1]]
  }

  /** Inserts `x` into sorted `s` in front of the first element `x` sorts before. */
  function Insert(x: string, s: seq<string>): (r: seq<string>)
    requires Sorted(s)
    ensures Sorted(r)
    ensures multiset(r) == multiset(s) + multiset{x}
  {
    if s == [] then [x]
    else if LexLe(x, s[0]) then
      InsertFront(x, s);
      [x] + s
    else
      LexLeTotal(x, s[0]);
      var t := Insert(x, s[1..]);
      assert s == [s[0]] + s[1..];
      InsertBehind(x, s, t);
      [s[0]] + t
  }

  /** A lower bound of every element of `s` bounds every member of its multiset. */
  lemma BoundsMultiset(a: string, s: seq<string>)
    requires forall j :: 0 <= j < |s| ==> LexLe(a, s[j])
    ensures forall y :: y in multiset(s) ==> LexLe(a, y)
  {
    forall y | y in multiset(s) ensures LexLe(a, y) {
      assert y in s;
    }
  }

  /** A lower bound of a sorted list can go in front of it. */
  lemma SortedCons(a: string, t: seq<string>)
    requires Sorted(t)
    requires forall y :: y in multiset(t) ==> LexLe(a, y)
    ensures Sorted([a] + t)
  {
    var u := [a] + t;
    forall i, j | 0 <= i < j < |u| ensures LexLe(u[i], u[j]) {
      assert u[j] == t[j - 1] && t[j - 1] in multiset(t);
      if i > 0 { assert u[i] == t[i - 1]; }
    }
  }

  lemma InsertFront(x: string, s: seq<string>)
    requires Sorted(s) && s != [] && LexLe(x, s[0])
    ensures Sorted([x] + s)
  {
    forall j | 0 <= j < |s| ensures LexLe(x, s[j]) {
      if j > 0 { LexLeTransitive(x, s[0], s[j]); }
    }
    BoundsMultiset(x, s);
    SortedCons(x, s);
  }

  lemma InsertBehind(x: string, s: seq<string>, t: seq<string>)
    requires Sorted(s) && s != [] && LexLe(s[0], x)
    requires Sorted(t) && multiset(t) == multiset(s[1..]) + multiset{x}
    ensures Sorted([s[0]] + t)
  {
    var rest := s[1..];
    forall j | 0 <= j < |rest| ensures LexLe(s[0], rest[j]) {
      assert rest[j] == s[j + 1];
    }
    BoundsMultiset(s[0], rest);
    SortedCons(s[0], t);
  }

  /** A sorted permutation of `s`. */
  function Sort(s: seq<string>): (r: seq<string>)
    ensures Sorted(r)
    ensures multiset(r) == multiset(s)
  {
    if s == [] then []
    else
      assert s == [s[0]] + s[1..];
      Insert(s[0], Sort(s[1..]))
  }

  lemma {:induction false} TwoOccurrences(s: seq<string>, i: nat, j: nat)
    requires i < j < |s|
    ensures s[i] == s[j] ==> multiset(s)[s[i]] >= 2
  {
    var x := s[i];
    assert s == s[..i] + [s[i]] + s[i + 1..j] + [s[j]] + s[j + 1..];
    assert multiset(s) == multiset(s[..i]) + multiset{x} + multiset(s[i + 1..j]) + multiset{s[j]} + multiset(s[j + 1..]);
  }

  lemma {:induction false} DistinctMultiplicity(s: seq<string>)
    requires NoDuplicates(s)
    ensures forall y :: multiset(s)[y] <= 1
  {
    if s != [] {
      var p, x := s[..|s| - 1], s[|s| - 1];
      DistinctMultiplicity(p);
      assert s == p + [x];
      assert forall j :: 0 <= j < |p| ==> p[j] != x;
      assert x !in p;
    }
  }

  lemma MultiplicityDistinct(s: seq<string>)
    requires forall y :: multiset(s)[y] <= 1
    ensures NoDuplicates(s)
  {
    forall i, j | 0 <= i < j < |s| ensures s[i] != s[j] {
      TwoOccurrences(s, i, j);
    }
  }

  /** Inserting a new element into a strictly sorted list keeps it strictly sorted. */
  lemma InsertStrict(x: string, s: seq<string>)
    requires StrictlySorted(s) && x !in s
    ensures StrictlySorted(Insert(x, s))
  {
    var r := Insert(x, s);
    DistinctMultiplicity(s);
    assert multiset(s)[x] == 0;
    MultiplicityDistinct(r);
  }

  /** Sorting a duplicate-free list gives a strictly sorted list. */
  lemma {:induction false} SortDistinct(s: seq<string>)
    requires NoDuplicates(s)
    ensures StrictlySorted(Sort(s))
  {
    if s != [] {
      var t := s[1..];
      assert forall j :: 0 <= j < |t| ==> t[j] != s[0];
      assert NoDuplicates(t);
      SortDistinct(t);
      assert s[0] !in multiset(Sort(t));
      InsertStrict(s[0], Sort(t));
    }
  }

  /** `[...new Set(s)].sort()`: strictly sorted, holding exactly the elements of `s`. */
  function SortedUnique(s: seq<string>): (r: seq<string>)
    ensures StrictlySorted(r)
    ensures forall x :: x in r <==> x in s
  {
    var d := Dedup(s);
    SortDistinct(d);
    var r := Sort(d);
    assert forall x :: x in r <==> x in multiset(d);
    r
  }
}
