/** Finite sums: over a sequence of integers, and over a finite set of keys with a real-valued
    weight (the `sum(... for k in d)` of the scripts, whose value does not depend on the
    order in which a dict is walked). */
module Sums {
  import opened Ordering

  function SumSeq(xs: seq<int>): int {
    if xs == [] then 0 else SumSeq(xs[..|xs| - 1]) + xs[|xs| - 1]
  }

  lemma SumSeqAppend(xs: seq<int>, x: int)
    ensures SumSeq(xs + [x]) == SumSeq(xs) + x
  {
    assert (xs + [x])[..|xs|] == xs;
  }

  lemma {:induction false} SumSeqBounds(xs: seq<int>, lo: int, hi: int)
    requires forall i | 0 <= i < |xs| :: lo <= xs[i] <= hi
    ensures lo * |xs| <= SumSeq(xs) <= hi * |xs|
  {
    if xs != [] {
      SumSeqBounds(xs[..|xs| - 1], lo, hi);
    }
  }

  lemma {:induction false} SumSeqConcat(a: seq<int>, b: seq<int>)
    ensures SumSeq(a + b) == SumSeq(a) + SumSeq(b)
    decreases |b|
  {
    if b == [] {
      assert a + b == a;
    } else {
      var init := b[..|b| - 1];
      assert a + b == (a + init) + [b[|b| - 1]];
      SumSeqConcat(a, init);
      SumSeqAppend(a + init, b[|b| - 1]);
    }
  }

  /** Inserting into a list adds the element to its sum. */
  lemma {:induction false} SumSeqInsert(x: int, xs: seq<int>)
    ensures SumSeq(Insert(x, xs)) == SumSeq(xs) + x
    decreases |xs|
  {
    if xs == [] {
      assert [x][..0] == [];
    } else if x <= xs[0] {
      SumSeqConcat([x], xs);
      assert [x][..0] == [];
    } else {
      SumSeqInsert(x, xs[1..]);
      SumSeqConcat([xs[0]], Insert(x, xs[1..]));
      SumSeqConcat([xs[0]], xs[1..]);
      assert [xs[0]][..0] == [];
      assert xs == [xs[0]] + xs[1..];
    }
  }

  /** Sorting does not change a sum. */
  lemma {:induction false} SumSeqSort(xs: seq<int>)
    ensures SumSeq(SortInts(xs)) == SumSeq(xs)
    decreases |xs|
  {
    if xs != [] {
      SumSeqSort(xs[..|xs| - 1]);
      SumSeqInsert(xs[|xs| - 1], SortInts(xs[..|xs| - 1]));
    }
  }

  function SumSeqReal(xs: seq<real>): real {
    if xs == [] then 0.0 else SumSeqReal(xs[..|xs| - 1]) + xs[|xs| - 1]
  }

  lemma SumSeqRealAppend(xs: seq<real>, x: real)
    ensures SumSeqReal(xs + [x]) == SumSeqReal(xs) + x
  {
    assert (xs + [x])[..|xs|] == xs;
  }

  /** The sum of `f` over the finite set `s`. */
  ghost function SumSet<K>(s: set<K>, f: K -> real): real
    decreases s
  {
    if s == {} then 0.0 else var k :| k in s; f(k) + SumSet(s - {k}, f)
  }

  /** The sum does not depend on which element is taken out first. */
  lemma {:induction false} SumSetRemove<K>(s: set<K>, f: K -> real, k: K)
    requires k in s
    ensures SumSet(s, f) == f(k) + SumSet(s - {k}, f)
    decreases s
  {
    var j :| j in s && SumSet(s, f) == f(j) + SumSet(s - {j}, f);
    if j != k {
      SumSetRemove(s - {j}, f, k);
      SumSetRemove(s - {k}, f, j);
      assert s - {j} - {k} == s - {k} - {j};
    }
  }

  lemma SumSetAdd<K>(s: set<K>, f: K -> real, k: K)
    requires k !in s
    ensures SumSet(s + {k}, f) == SumSet(s, f) + f(k)
  {
    SumSetRemove(s + {k}, f, k);
    assert s + {k} - {k} == s;
  }

  lemma {:induction false} SumSetExt<K>(s: set<K>, f: K -> real, g: K -> real)
    requires forall k | k in s :: f(k) == g(k)
    ensures SumSet(s, f) == SumSet(s, g)
    decreases s
  {
    if s != {} {
      var k :| k in s;
      SumSetRemove(s, f, k);
      SumSetRemove(s, g, k);
      SumSetExt(s - {k}, f, g);
    }
  }

  lemma {:induction false} SumSetMono<K>(s: set<K>, f: K -> real, g: K -> real)
    requires forall k | k in s :: f(k) <= g(k)
    ensures SumSet(s, f) <= SumSet(s, g)
    decreases s
  {
    if s != {} {
      var k :| k in s;
      SumSetRemove(s, f, k);
      SumSetRemove(s, g, k);
      SumSetMono(s - {k}, f, g);
    }
  }

  lemma {:induction false} SumSetScale<K>(s: set<K>, f: K -> real, c: real, g: K -> real)
    requires forall k | k in s :: g(k) == c * f(k)
    ensures SumSet(s, g) == c * SumSet(s, f)
    decreases s
  {
    if s != {} {
      var k :| k in s;
      var r := s - {k};
      SumSetRemove(s, f, k);
      SumSetRemove(s, g, k);
      SumSetScale(r, f, c, g);
      calc {
        SumSet(s, g);
        g(k) + SumSet(r, g);
        c * f(k) + c * SumSet(r, f);
        { RealDistrib(c, f(k), SumSet(r, f)); }
        c * (f(k) + SumSet(r, f));
        c * SumSet(s, f);
      }
    }
  }

  lemma RealDistrib(c: real, a: real, b: real)
    ensures c * a + c * b == c * (a + b)
  {
  }

  lemma {:induction false} SumSetPlus<K>(s: set<K>, f: K -> real, g: K -> real, h: K -> real)
    requires forall k | k in s :: h(k) == f(k) + g(k)
    ensures SumSet(s, h) == SumSet(s, f) + SumSet(s, g)
    decreases s
  {
    if s != {} {
      var k :| k in s;
      SumSetRemove(s, f, k);
      SumSetRemove(s, g, k);
      SumSetRemove(s, h, k);
      SumSetPlus(s - {k}, f, g, h);
    }
  }

  /** Summing a weight that is 1 on a subset and 0 elsewhere counts the subset. */
  lemma {:induction false} SumSetCount<K>(s: set<K>, t: set<K>, f: K -> real)
    requires t <= s
    requires forall k | k in s :: f(k) == if k in t then 1.0 else 0.0
    ensures SumSet(s, f) == |t| as real
    decreases s
  {
    if s != {} {
      var k :| k in s;
      SumSetRemove(s, f, k);
      SumSetCount(s - {k}, t - {k}, f);
      if k in t { assert |t| == |t - {k}| + 1; } else { assert t - {k} == t; }
    }
  }

  /** A sum over a union of disjoint sets. */
  lemma {:induction false} SumSetUnion<K>(a: set<K>, b: set<K>, f: K -> real)
    requires a * b == {}
    ensures SumSet(a + b, f) == SumSet(a, f) + SumSet(b, f)
    decreases a
  {
    if a != {} {
      var k :| k in a;
      SumSetRemove(a, f, k);
      SumSetRemove(a + b, f, k);
      assert a + b - {k} == (a - {k}) + b;
      SumSetUnion(a - {k}, b, f);
    } else {
      assert a + b == b;
    }
  }

  lemma {:induction false} SumSetNonneg<K>(s: set<K>, f: K -> real)
    requires forall k | k in s :: f(k) >= 0.0
    ensures SumSet(s, f) >= 0.0
    decreases s
  {
    if s != {} {
      var k :| k in s;
      SumSetRemove(s, f, k);
      SumSetNonneg(s - {k}, f);
    }
  }

  /** A sum of non-negative terms is at least any one of them. */
  lemma SumSetAtLeastOne<K>(s: set<K>, f: K -> real, k: K)
    requires k in s
    requires forall j | j in s :: f(j) >= 0.0
    ensures SumSet(s, f) >= f(k)
  {
    SumSetRemove(s, f, k);
    SumSetNonneg(s - {k}, f);
  }

  /** A constant weight sums to the weight times the size of the set. */
  lemma {:induction false} SumSetConst<K>(s: set<K>, f: K -> real, c: real)
    requires forall k | k in s :: f(k) == c
    ensures SumSet(s, f) == c * |s| as real
    decreases s
  {
    if s != {} {
      var k :| k in s;
      SumSetRemove(s, f, k);
      SumSetConst(s - {k}, f, c);
    }
  }

  /** A weight that is zero on the whole set sums to zero. */
  lemma {:induction false} SumSetZero<K>(s: set<K>, f: K -> real)
    requires forall k | k in s :: f(k) == 0.0
    ensures SumSet(s, f) == 0.0
    decreases s
  {
    if s != {} {
      var k :| k in s;
      SumSetRemove(s, f, k);
      SumSetZero(s - {k}, f);
    }
  }
}
