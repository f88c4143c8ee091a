/** The per-round averages of the line charts: each round's values are sorted, the largest
    few percent dropped (at least one value is always kept), and the rest averaged; an
    empty round averages to 0. */
module TrimmedMean {
  import opened Ordering
  import opened Sums

  /** `max(1, int(n * pct / 100))`: how many of the smallest values are kept. */
  function Keep(n: nat, pct: nat): (k: nat)
    requires n >= 1 && pct <= 100
    ensures 1 <= k <= n
    ensures n >= 2 && pct < 100 ==> k < n
  {
    var cut := n * pct / 100;
    CutAtMost(n, pct);
    if cut < 1 then 1 else cut
  }

  /** `int(n * pct / 100)` is at most `n`, and below `n` when some percent is dropped. */
  lemma CutAtMost(n: nat, pct: nat)
    requires n >= 1 && pct <= 100
    ensures n * pct / 100 <= n
    ensures pct < 100 ==> n * pct / 100 < n
  {
    MulLeft(n, pct, 100);
    if pct < 100 {
      MulLeft(n, pct, 99);
    }
  }

  function Mean(xs: seq<int>): real
    requires xs != []
  {
    SumSeq(xs) as real / |xs| as real
  }

  /** The mean of the `Keep` smallest values, or 0 for no values. */
  function Trimmed(xs: seq<int>, pct: nat): real
    requires pct <= 100
  {
    if xs == [] then 0.0 else Mean(SortInts(xs)[..Keep(|xs|, pct)])
  }

  /** The rounds' lists, padded with empty lists up to `rounds` and cut to `rounds`. */
  function RoundList(lists: seq<seq<int>>, k: nat): seq<int> {
    if k < |lists| then lists[k] else []
  }

  /** The averaging loop: pad, truncate, then one trimmed mean per round. */
  method RoundAverages(lists: seq<seq<int>>, rounds: nat, pct: nat) returns (avgs: seq<real>)
    requires pct <= 100
    ensures |avgs| == rounds
    ensures forall k | 0 <= k < rounds :: avgs[k] == Trimmed(RoundList(lists, k), pct)
  {
    var padded := Pad(lists, rounds);
    avgs := [];
    for k := 0 to rounds
      invariant avgs == Averages(lists, k, pct)
    {
      var avg := Average(padded[k], pct);
      avgs := avgs + [avg];
    }
    AveragesAt(lists, rounds, pct);
  }

  /** The averages of the first `n` rounds. */
  function Averages(lists: seq<seq<int>>, n: nat, pct: nat): seq<real>
    requires pct <= 100
  {
    if n == 0 then [] else Averages(lists, n - 1, pct) + [Trimmed(RoundList(lists, n - 1), pct)]
  }

  lemma {:induction false} AveragesAt(lists: seq<seq<int>>, n: nat, pct: nat)
    requires pct <= 100
    ensures |Averages(lists, n, pct)| == n
    ensures forall k | 0 <= k < n :: Averages(lists, n, pct)[k] == Trimmed(RoundList(lists, k), pct)
  {
    if n > 0 {
      AveragesAt(lists, n - 1, pct);
      SnocPointwise(Averages(lists, n - 1, pct), Trimmed(RoundList(lists, n - 1), pct), RoundMeans(lists, pct), n);
    }
  }

  /** Round `k`'s trimmed mean, as a function of `k`. */
  ghost function RoundMeans(lists: seq<seq<int>>, pct: nat): nat -> real
    requires pct <= 100
  {
    (k: nat) => Trimmed(RoundList(lists, k), pct)
  }

  lemma SnocPointwise<T>(a: seq<T>, t: T, f: nat -> T, n: nat)
    requires n > 0 && |a| == n - 1 && t == f(n - 1)
    requires forall k | 0 <= k < n - 1 :: a[k] == f(k)
    ensures |a + [t]| == n && forall k | 0 <= k < n :: (a + [t])[k] == f(k)
  {
  }

  /** `lists + [[] for _ in range(rounds - len(lists))]` when there are fewer than `rounds`. */
  method Pad(lists: seq<seq<int>>, rounds: nat) returns (padded: seq<seq<int>>)
    ensures |padded| >= rounds
    ensures forall k | 0 <= k < rounds :: padded[k] == RoundList(lists, k)
  {
    padded := lists;
    if |padded| < rounds {
      padded := padded + seq(rounds - |padded|, _ => []);
    }
  }

  /** One round's average. */
  method Average(lst: seq<int>, pct: nat) returns (avg: real)
    requires pct <= 100
    ensures avg == Trimmed(lst, pct)
  {
    if lst != [] {
      var sorted := SortInts(lst);
      var cutoff := Keep(|sorted|, pct);
      var filtered := sorted[..cutoff];
      avg := SumSeq(filtered) as real / |filtered| as real;
    } else {
      avg := 0.0;
    }
  }

  /** A mean of values within [lo, hi] lies within [lo, hi]. */
  lemma MeanBounds(xs: seq<int>, lo: int, hi: int)
    requires xs != []
    requires forall i | 0 <= i < |xs| :: lo <= xs[i] <= hi
    ensures lo as real <= Mean(xs) <= hi as real
  {
    SumSeqBounds(xs, lo, hi);
    IntMulReal(lo, |xs|);
    IntMulReal(hi, |xs|);
    DivBounds(SumSeq(xs) as real, |xs| as real, lo as real, hi as real);
  }

  lemma IntMulReal(a: int, b: int)
    ensures (a * b) as real == a as real * b as real
  {
  }

  lemma DivBounds(s: real, n: real, lo: real, hi: real)
    requires n > 0.0 && lo * n <= s <= hi * n
    ensures lo <= s / n <= hi
  {
  }

  /** The trimmed mean of a round lies between the smallest and the largest of its values. */
  lemma TrimmedBounds(xs: seq<int>, pct: nat, lo: int, hi: int)
    requires pct <= 100 && xs != []
    requires forall i | 0 <= i < |xs| :: lo <= xs[i] <= hi
    ensures lo as real <= Trimmed(xs, pct) <= hi as real
  {
    var s := SortInts(xs);
    var kept := s[..Keep(|xs|, pct)];
    forall i | 0 <= i < |kept| ensures lo <= kept[i] <= hi {
      assert kept[i] in multiset(s);
      var j :| 0 <= j < |xs| && xs[j] == kept[i];
    }
    MeanBounds(kept, lo, hi);
  }

  /** Dropping the largest values never raises the average: the trimmed mean is at most the
      mean of all the values. */
  lemma TrimmedAtMostMean(xs: seq<int>, pct: nat)
    requires pct <= 100 && xs != []
    ensures Trimmed(xs, pct) <= Mean(xs)
  {
    var s := SortInts(xs);
    var k := Keep(|xs|, pct);
    assert Trimmed(xs, pct) == Mean(s[..k]);
    SumSeqSort(xs);
    assert Mean(s) == Mean(xs);
    SortedPrefixMean(s, k);
  }

  /** The mean of the first `k` values of a sorted list is at most the mean of the list. */
  lemma SortedPrefixMean(s: seq<int>, k: nat)
    requires Sorted(s) && 0 < k <= |s|
    ensures Mean(s[..k]) <= Mean(s)
  {
    var p, q := s[..k], s[k..];
    assert s == p + q;
    SumSeqConcat(p, q);
    PrefixAtMost(s, k);
    SplitMean(SumSeq(p), SumSeq(q), k, |s|, s[k - 1]);
  }

  /** In a sorted list, the first `k` values sum to at most `k` times the `k`-th, and the
      others to at least their number times it. */
  lemma PrefixAtMost(s: seq<int>, k: nat)
    requires Sorted(s) && 0 < k <= |s|
    ensures SumSeq(s[..k]) <= k * s[k - 1]
    ensures SumSeq(s[k..]) >= (|s| - k) * s[k - 1]
  {
    var m := s[k - 1];
    var p, q := s[..k], s[k..];
    forall i | 0 <= i < |p| ensures s[0] <= p[i] <= m {
      assert p[i] == s[i];
    }
    forall i | 0 <= i < |q| ensures m <= q[i] <= s[|s| - 1] {
      assert q[i] == s[k + i];
    }
    SumSeqBounds(p, s[0], m);
    assert |p| == k;
    SumSeqBounds(q, m, s[|s| - 1]);
    assert |q| == |s| - k;
  }

  /** With the first `k` of `n` values summing to at most `k m` and the rest to at least
      `(n - k) m`, the first values' mean is at most the mean of all. */
  lemma SplitMean(p: int, q: int, k: nat, n: nat, m: int)
    requires 0 < k <= n && p <= k * m && q >= (n - k) * m
    ensures p as real / k as real <= (p + q) as real / n as real
  {
    assert (n - k) * p <= (n - k) * (k * m) by {
      MulLeft(n - k, p, k * m);
    }
    assert k * ((n - k) * m) <= k * q by {
      MulLeft(k, (n - k) * m, q);
    }
    assert (n - k) * (k * m) == k * ((n - k) * m);
    assert n * p <= k * (p + q);
    CrossDivide(p as real, (p + q) as real, k as real, n as real);
  }

  lemma MulLeft(c: nat, x: int, y: int)
    requires x <= y
    ensures c * x <= c * y
  {
  }

  lemma CrossDivide(a: real, b: real, k: real, n: real)
    requires k > 0.0 && n > 0.0 && n * a <= k * b
    ensures a / k <= b / n
  {
    assert a / k == (n * a) / (n * k);
    assert b / n == (k * b) / (n * k);
  }
}
