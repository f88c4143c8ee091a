/** Python's ordering of strings (code-point lexicographic) and of integers, with the two
    `sorted(...)` calls the scripts make: of a set of names, and of a list of counts. */
module Ordering {

  /** `a < b` on Python `str`. */
  predicate StrLt(a: string, b: string)
    decreases |a|
  {
    if a == [] then b != []
    else if b == [] then false
    else if a[0] != b[0] then a[0] < b[0]
    else StrLt(a[1..], b[1..])
  }

  predicate StrLe(a: string, b: string) { a == b || StrLt(a, b) }

  lemma StrLtIrreflexive(a: string)
    ensures !StrLt(a, a)
  {
  }

  lemma {:induction false} StrLtTotal(a: string, b: string)
    ensures a == b || StrLt(a, b) || StrLt(b, a)
    decreases |a|
  {
    if a != [] && b != [] && a[0] == b[0] {
      StrLtTotal(a[1..], b[1..]);
      if a[1..] == b[1..] { assert a == [a[0]] + a[1..] && b == [b[0]] + b[1..]; }
    }
  }

  lemma {:induction false} StrLtAsymmetric(a: string, b: string)
    ensures !(StrLt(a, b) && StrLt(b, a))
    decreases |a|
  {
    if a != [] && b != [] && a[0] == b[0] { StrLtAsymmetric(a[1..], b[1..]); }
  }

  lemma {:induction false} StrLtTransitive(a: string, b: string, c: string)
    requires StrLt(a, b) && StrLt(b, c)
    ensures StrLt(a, c)
    decreases |a|
  {
    if a != [] && a[0] == b[0] && b[0] == c[0] { StrLtTransitive(a[1..], b[1..], c[1..]); }
  }

  predicate StrictlySorted(xs: seq<string>) {
    forall i, j | 0 <= i < j < |xs| :: StrLt(xs[i], xs[j])
  }

  /** Every finite non-empty set of strings has a least element. */
  lemma {:induction false} LeastExists(s: set<string>)
    requires s != {}
    ensures exists m | m in s :: forall y | y in s :: StrLe(m, y)
    decreases s
  {
    var x :| x in s;
    if s == {x} {
      assert forall y | y in s :: StrLe(x, y);
    } else {
      LeastExists(s - {x});
      var m :| m in s - {x} && forall y | y in s - {x} :: StrLe(m, y);
      StrLtTotal(m, x);
      if StrLt(x, m) {
        LeastBelowLeast(s, x, m);
      } else {
        LeastStaysLeast(s, x, m);
      }
    }
  }

  /** An element below the least of the others is the least of all. */
  lemma LeastBelowLeast(s: set<string>, x: string, m: string)
    requires x in s && m in s - {x} && forall y | y in s - {x} :: StrLe(m, y)
    requires StrLt(x, m)
    ensures forall y | y in s :: StrLe(x, y)
  {
    forall y | y in s ensures StrLe(x, y) {
      if y != x {
        assert y in s - {x};
        if y != m { StrLtTransitive(x, m, y); }
      }
    }
  }

  /** The least of the others stays least when the new element is above it. */
  lemma LeastStaysLeast(s: set<string>, x: string, m: string)
    requires x in s && m in s - {x} && forall y | y in s - {x} :: StrLe(m, y)
    requires StrLt(m, x)
    ensures forall y | y in s :: StrLe(m, y)
  {
    forall y | y in s ensures StrLe(m, y) {
      if y != x { assert y in s - {x}; }
    }
  }

  /** `sorted(s)` for a set of strings: the elements of `s` in increasing order. */
  method SortedOfSet(s: set<string>) returns (r: seq<string>)
    ensures StrictlySorted(r)
    ensures forall x :: x in r <==> x in s
    ensures |r| == |s|
  {
    r := [];
    var rest := s;
    while rest != {}
      decreases rest
      invariant rest <= s
      invariant forall x :: x in s <==> x in r || x in rest
      invariant forall x | x in r :: x !in rest
      invariant |r| + |rest| == |s|
      invariant StrictlySorted(r)
      invariant forall i, y | 0 <= i < |r| && y in rest :: StrLt(r[i], y)
    {
      LeastExists(rest);
      var m :| m in rest && forall y | y in rest :: StrLe(m, y);
      forall y | y in rest - {m} ensures StrLt(m, y) { }
      r := r + [m];
      rest := rest - {m};
    }
  }

  // ---------------------------------------------------------------- integers

  predicate Sorted(xs: seq<int>) {
    forall i, j | 0 <= i < j < |xs| :: xs[i] <= xs[j]
  }

  /** `x` placed before the first element not below it. */
  function Insert(x: int, xs: seq<int>): (r: seq<int>)
    ensures |r| == |xs| + 1
    ensures multiset(r) == multiset(xs) + multiset{x}
  {
    if xs == [] then [x]
    else if x <= xs[0] then [x] + xs
    else
      assert xs == [xs[0]] + xs[1..];
      [xs[0]] + Insert(x, xs[1..])
  }

  lemma {:induction false} InsertSorted(x: int, xs: seq<int>)
    requires Sorted(xs)
    ensures Sorted(Insert(x, xs))
  {
    if xs != [] && x > xs[0] {
      var rest := Insert(x, xs[1..]);
      InsertSorted(x, xs[1..]);
      forall i | 0 <= i < |rest| ensures xs[0] <= rest[i] {
        assert rest[i] in multiset(rest);
        if rest[i] != x {
          assert rest[i] in multiset(xs[1..]);
        }
      }
      assert Insert(x, xs) == [xs[0]] + rest;
    }
  }

  /** `sorted(xs)` for a list of integers: ascending, and a permutation of `xs`. */
  function SortInts(xs: seq<int>): (r: seq<int>)
    ensures |r| == |xs|
    ensures Sorted(r) && multiset(r) == multiset(xs)
  {
    if xs == [] then []
    else
      assert xs == xs[..|xs| - 1] + [xs[|xs| - 1]];
      InsertSorted(xs[|xs| - 1], SortInts(xs[..|xs| - 1]));
      Insert(xs[|xs| - 1], SortInts(xs[..|xs| - 1]))
  }
}
