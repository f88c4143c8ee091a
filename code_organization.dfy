/** The code-organisation metrics computed from one file history (file name to its
    (round, operation, lines added, lines removed) entries): how many surviving files were
    touched recently, how many sit at the repository root, how concentrated the
    modifications are, how often created files are reused, and how many file names share
    a prefix. */
module CodeOrganization {
  import opened Wrappers
  import opened Text
  import opened Ordering
  import opened Sums
  import opened OrderedDict
  import opened FileHistory

  // ---------------------------------------------------------------- surviving files

  /** Some entry of the history is a deletion. */
  predicate HasDeleted(hist: seq<Entry>) {
    hist != [] && (hist[0].op == Deleted || HasDeleted(hist[1..]))
  }

  /** `existing_files`: the files none of whose entries is a deletion, in dict order. */
  function Existing(h: History): (r: History)
    ensures |r| <= |h|
  {
    if h == [] then []
    else (if HasDeleted(h[0].1) then [] else [h[0]]) + Existing(h[1..])
  }

  /** A file survives exactly when it is in the dict and none of its entries is a deletion. */
  lemma {:induction false} ExistingMembers(h: History, f: (string, seq<Entry>))
    ensures f in Existing(h) <==> f in h && !HasDeleted(f.1)
  {
    if h != [] {
      ExistingMembers(h[1..], f);
      assert h == [h[0]] + h[1..];
    }
  }

  lemma {:induction false} HasDeletedIff(hist: seq<Entry>)
    ensures HasDeleted(hist) <==> exists i | 0 <= i < |hist| :: hist[i].op == Deleted
  {
    if hist != [] {
      HasDeletedIff(hist[1..]);
      if HasDeleted(hist[1..]) {
        var i :| 0 <= i < |hist[1..]| && hist[1..][i].op == Deleted;
        assert hist[i + 1] == hist[1..][i];
      }
      if exists i | 0 <= i < |hist| :: hist[i].op == Deleted {
        var i :| 0 <= i < |hist| && hist[i].op == Deleted;
        if i > 0 {
          assert hist[1..][i - 1] == hist[i];
        }
      }
    }
  }

  // ---------------------------------------------------------------- last rounds

  function Max(a: int, b: int): int { if a < b then b else a }

  /** `max(r for r, _, _, _ in hist)` of a non-empty history. */
  function LastRound(hist: seq<Entry>): int
    requires hist != []
  {
    if |hist| == 1 then hist[0].round
    else Max(hist[0].round, LastRound(hist[1..]))
  }

  /** The last round is the round of some entry and no entry has a later one. */
  lemma {:induction false} LastRoundSpec(hist: seq<Entry>)
    requires hist != []
    ensures exists i | 0 <= i < |hist| :: hist[i].round == LastRound(hist)
    ensures forall i | 0 <= i < |hist| :: hist[i].round <= LastRound(hist)
  {
    if |hist| > 1 {
      var rest := hist[1..];
      LastRoundSpec(rest);
      var j :| 0 <= j < |rest| && rest[j].round == LastRound(rest);
      assert hist[j + 1] == rest[j];
      forall i | 1 <= i < |hist| ensures hist[i].round <= LastRound(hist) {
        assert hist[i] == rest[i - 1];
      }
      if hist[0].round < LastRound(rest) {
        assert hist[j + 1].round == LastRound(hist);
      } else {
        assert hist[0].round == LastRound(hist);
      }
    } else {
      assert hist[0].round == LastRound(hist);
    }
  }

  /** Every history of the dict has at least one entry. */
  predicate AllNonEmpty(h: History) {
    forall i | 0 <= i < |h| :: h[i].1 != []
  }

  /** `max(max(r for ...) for h in existing.values())`: the last round of any file. */
  function LatestRound(h: History): int
    requires h != [] && AllNonEmpty(h)
  {
    if |h| == 1 then LastRound(h[0].1)
    else
      assert forall i | 0 <= i < |h[1..]| :: h[1..][i] == h[i + 1];
      Max(LastRound(h[0].1), LatestRound(h[1..]))
  }

  /** The latest round is some file's last round and no file's last round is later. */
  lemma {:induction false} LatestRoundSpec(h: History)
    requires h != [] && AllNonEmpty(h)
    ensures exists i | 0 <= i < |h| :: LastRound(h[i].1) == LatestRound(h)
    ensures forall i | 0 <= i < |h| :: LastRound(h[i].1) <= LatestRound(h)
  {
    if |h| > 1 {
      var rest := h[1..];
      assert forall i | 0 <= i < |rest| :: rest[i] == h[i + 1];
      LatestRoundSpec(rest);
      var j :| 0 <= j < |rest| && LastRound(rest[j].1) == LatestRound(rest);
      assert h[j + 1] == rest[j];
      forall i | 1 <= i < |h| ensures LastRound(h[i].1) <= LatestRound(h) {
        assert h[i] == rest[i - 1];
      }
      if LastRound(h[0].1) < LatestRound(rest) {
        assert LastRound(h[j + 1].1) == LatestRound(h);
      } else {
        assert LastRound(h[0].1) == LatestRound(h);
      }
    } else {
      assert LastRound(h[0].1) == LatestRound(h);
    }
  }

  // ---------------------------------------------------------------- active files

  /** A count of files with its share of a total, or no share when there is no file. */
  datatype FileRatio = FileRatio(total: nat, count: nat, ratio: Option<real>)

  /** The number of files whose last round is at least `since`. */
  function ActiveCount(h: History, since: int): (n: nat)
    requires AllNonEmpty(h)
    ensures n <= |h|
  {
    if h == [] then 0
    else
      assert forall i | 0 <= i < |h[1..]| :: h[1..][i] == h[i + 1];
      (if LastRound(h[0].1) >= since then 1 else 0) + ActiveCount(h[1..], since)
  }

  /** Some history of the dict has no entry. */
  predicate SomeEmpty(h: History) {
    exists i | 0 <= i < |h| :: h[i].1 == []
  }

  /** `calculate_active_file_ratio`: among the surviving files, those touched in the last
      `n` rounds up to the latest round. A surviving file with no entry makes `max` fail. */
  function ActiveFileRatio(h: History, n: int): Result<FileRatio>
  {
    if h == [] then Ok(FileRatio(0, 0, None))
    else
      var ex := Existing(h);
      if ex == [] then Ok(FileRatio(0, 0, None))
      else if SomeEmpty(ex) then Fail(ValueError("max() arg is an empty sequence"))
      else
        var active := ActiveCount(ex, LatestRound(ex) - n + 1);
        Ok(FileRatio(|ex|, active, Some(active as real / |ex| as real)))
  }

  /** The ratio fails exactly when a surviving file has no entry. */
  lemma ActiveFileRatioFails(h: History, n: int)
    ensures ActiveFileRatio(h, n).Fail? <==> SomeEmpty(Existing(h))
  {
    if h == [] {
      assert Existing(h) == [];
    }
  }

  /** There is no ratio exactly when every file was deleted at some point. */
  lemma ActiveFileRatioNone(h: History, n: int)
    ensures ActiveFileRatio(h, n) == Ok(FileRatio(0, 0, None)) <==> Existing(h) == []
  {
    if h == [] {
      assert Existing(h) == [];
    }
  }

  /** Otherwise at most all surviving files are active, and with a window of at least one
      round the file touched last always is. */
  lemma ActiveFileRatioBounds(h: History, n: int)
    requires ActiveFileRatio(h, n).Ok? && ActiveFileRatio(h, n).value.ratio.Some?
    ensures var r := ActiveFileRatio(h, n).value;
            r.total == |Existing(h)| && r.count <= r.total && r.ratio.value <= 1.0
            && (n >= 1 ==> 1 <= r.count && 0.0 < r.ratio.value)
  {
    var ex := Existing(h);
    var since := LatestRound(ex) - n + 1;
    var active := ActiveCount(ex, since);
    RatioInUnit(active, |ex|);
    if n >= 1 {
      LatestRoundSpec(ex);
      var j :| 0 <= j < |ex| && LastRound(ex[j].1) == LatestRound(ex);
      ActiveCountPositive(ex, since, j);
    }
  }

  /** A count out of a positive total is a ratio in [0, 1], positive when the count is. */
  lemma RatioInUnit(count: nat, total: nat)
    requires count <= total && total > 0
    ensures 0.0 <= count as real / total as real <= 1.0
    ensures count > 0 ==> 0.0 < count as real / total as real
  {
  }

  /** A file whose last round reaches `since` makes the active count positive. */
  lemma {:induction false} ActiveCountPositive(h: History, since: int, j: nat)
    requires AllNonEmpty(h) && j < |h| && LastRound(h[j].1) >= since
    ensures ActiveCount(h, since) >= 1
  {
    if j > 0 {
      assert h[1..][j - 1] == h[j];
      assert forall i | 0 <= i < |h[1..]| :: h[1..][i] == h[i + 1];
      ActiveCountPositive(h[1..], since, j - 1);
    }
  }

  // ---------------------------------------------------------------- root clutter

  /** The number of names without a "/". */
  function RootCount(h: History): (n: nat)
    ensures n <= |h|
  {
    if h == [] then 0 else (if '/' !in h[0].0 then 1 else 0) + RootCount(h[1..])
  }

  /** `calculate_root_clutter_ratio`: the share of surviving files at the repository root. */
  function RootClutterRatio(h: History): FileRatio
  {
    var ex := Existing(h);
    if ex == [] then FileRatio(0, 0, None)
    else FileRatio(|ex|, RootCount(ex), Some(RootCount(ex) as real / |ex| as real))
  }

  /** The ratio is missing exactly when no file survives, and otherwise lies in [0, 1]. */
  lemma RootClutterRange(h: History)
    ensures RootClutterRatio(h).ratio.None? <==> Existing(h) == []
    ensures RootClutterRatio(h).ratio.Some? ==>
              0.0 <= RootClutterRatio(h).ratio.value <= 1.0 && RootClutterRatio(h).total == |Existing(h)|
  {
    var ex := Existing(h);
    if ex != [] {
      RatioInUnit(RootCount(ex), |ex|);
    }
  }

  /** Every surviving name at the root counts them all; none at the root counts none. */
  lemma RootClutterExtremes(h: History)
    ensures (forall i | 0 <= i < |Existing(h)| :: '/' !in Existing(h)[i].0)
              ==> RootClutterRatio(h).count == |Existing(h)|
    ensures (forall i | 0 <= i < |Existing(h)| :: '/' in Existing(h)[i].0)
              ==> RootClutterRatio(h).count == 0
  {
    var ex := Existing(h);
    RootCountAll(ex);
    RootCountNone(ex);
  }

  lemma {:induction false} RootCountAll(h: History)
    ensures (forall i | 0 <= i < |h| :: '/' !in h[i].0) ==> RootCount(h) == |h|
  {
    if h != [] {
      assert forall i | 0 <= i < |h[1..]| :: h[1..][i] == h[i + 1];
      RootCountAll(h[1..]);
    }
  }

  lemma {:induction false} RootCountNone(h: History)
    ensures (forall i | 0 <= i < |h| :: '/' in h[i].0) ==> RootCount(h) == 0
  {
    if h != [] {
      assert forall i | 0 <= i < |h[1..]| :: h[1..][i] == h[i + 1];
      RootCountNone(h[1..]);
    }
  }

  // ---------------------------------------------------------------- churn

  /** A file's churn: its number of modification entries, or with `magnitude` the lines
      added plus removed over them. */
  function Churn(hist: seq<Entry>, magnitude: bool): int
  {
    if hist == [] then 0
    else
      (if hist[0].op != Modified then 0
       else if magnitude then hist[0].added + hist[0].removed
       else 1)
      + Churn(hist[1..], magnitude)
  }

  /** `churn_counts.values()`: the positive churns, in dict order. */
  function ChurnValues(h: History, magnitude: bool): (cs: seq<int>)
    ensures forall i | 0 <= i < |cs| :: cs[i] > 0
  {
    if h == [] then []
    else
      var c := Churn(h[0].1, magnitude);
      var rest := ChurnValues(h[1..], magnitude);
      assert forall i | 1 <= i < |[c] + rest| :: ([c] + rest)[i] == rest[i - 1];
      (if c > 0 then [c] else []) + rest
  }

  /** The `k` largest values: the first `k` of `sorted(xs, reverse=True)`, which hold the
      same values as the last `k` of the ascending sort. */
  function Largest(xs: seq<int>, k: nat): seq<int>
    requires k <= |xs|
  {
    var s := SortInts(xs);
    assert |s| == |multiset(s)| == |multiset(xs)| == |xs|;
    s[|xs| - k..]
  }

  datatype ChurnReport = ChurnReport(total: int, files: nat, concentration: Option<real>, topCount: nat)

  /** `max(1, n // 10)` */
  function TopCount(n: nat): nat { if n / 10 < 1 then 1 else n / 10 }

  /** `calculate_churn_concentration`: the share of all churn that falls on the tenth of
      the changed files (at least one) with the largest churn. */
  function ChurnConcentration(h: History, magnitude: bool): ChurnReport
  {
    var cs := ChurnValues(h, magnitude);
    if cs == [] then ChurnReport(0, 0, None, 0)
    else
      var top := TopCount(|cs|);
      PositiveSum(cs);
      ChurnReport(SumSeq(cs), |cs|, Some(SumSeq(Largest(cs, top)) as real / SumSeq(cs) as real), top)
  }

  lemma {:induction false} PositiveSum(xs: seq<int>)
    requires forall i | 0 <= i < |xs| :: xs[i] > 0
    ensures SumSeq(xs) >= |xs|
  {
    if xs != [] {
      PositiveSum(xs[..|xs| - 1]);
    }
  }

  lemma {:induction false} NonNegativeSum(xs: seq<int>)
    requires forall i | 0 <= i < |xs| :: xs[i] >= 0
    ensures SumSeq(xs) >= 0
  {
    if xs != [] {
      NonNegativeSum(xs[..|xs| - 1]);
    }
  }

  /** Sorting keeps the length and the positivity of the values. */
  lemma SortPositive(xs: seq<int>)
    requires forall i | 0 <= i < |xs| :: xs[i] > 0
    ensures |SortInts(xs)| == |xs|
    ensures forall i | 0 <= i < |SortInts(xs)| :: SortInts(xs)[i] > 0
  {
    var s := SortInts(xs);
    assert |s| == |multiset(s)| == |multiset(xs)| == |xs|;
    forall i | 0 <= i < |s| ensures s[i] > 0 {
      assert s[i] in multiset(xs);
    }
  }

  /** No value left out of the `k` largest is above one of them. */
  lemma LargestAreLargest(xs: seq<int>, k: nat)
    requires k <= |xs| && |SortInts(xs)| == |xs|
    ensures forall i, j | 0 <= i < |xs| - k <= j < |xs| :: SortInts(xs)[i] <= SortInts(xs)[j]
  {
  }

  /** With positive values the sum of the `k` largest is positive and at most the whole. */
  lemma LargestSum(xs: seq<int>, k: nat)
    requires 1 <= k <= |xs| && forall i | 0 <= i < |xs| :: xs[i] > 0
    ensures 0 < SumSeq(Largest(xs, k)) <= SumSeq(xs)
  {
    var s := SortInts(xs);
    SortPositive(xs);
    SumSeqSort(xs);
    TailSum(s, |xs| - k);
    var t := s[|xs| - k..];
    assert Largest(xs, k) == t;
    SumSeqEq(Largest(xs, k), t);
  }

  lemma SumSeqEq(a: seq<int>, b: seq<int>)
    requires a == b
    ensures SumSeq(a) == SumSeq(b)
  {
  }

  /** A non-empty tail of positive values sums to a positive part of the whole. */
  lemma TailSum(s: seq<int>, m: nat)
    requires m < |s| && forall i | 0 <= i < |s| :: s[i] > 0
    ensures 0 < SumSeq(s[m..]) <= SumSeq(s)
  {
    var lo, hi := s[..m], s[m..];
    assert s == lo + hi;
    SumSeqConcat(lo, hi);
    PositiveSum(hi);
    NonNegativeSum(lo);
  }

  /** Churn is reported for exactly the histories with a positive churn; the concentration
      is then in (0, 1] and the top group holds a tenth of the changed files (at least one,
      never more than all). */
  lemma ChurnConcentrationSpec(h: History, magnitude: bool)
    ensures ChurnConcentration(h, magnitude).concentration.None? <==> ChurnValues(h, magnitude) == []
    ensures var r := ChurnConcentration(h, magnitude);
            r.concentration.Some? ==>
              r.files == |ChurnValues(h, magnitude)| && 1 <= r.topCount <= r.files
              && r.total == SumSeq(ChurnValues(h, magnitude)) && r.total >= r.files
              && 0.0 < r.concentration.value <= 1.0
  {
    var cs := ChurnValues(h, magnitude);
    if cs != [] {
      var top := TopCount(|cs|);
      LargestSum(cs, top);
      PositiveSum(cs);
      ShareInUnit(SumSeq(Largest(cs, top)), SumSeq(cs));
    }
  }

  lemma ShareInUnit(part: int, whole: int)
    requires 0 < part <= whole
    ensures 0.0 < part as real / whole as real <= 1.0
  {
  }

  /** The number of modification entries of one file and of the whole dict. */
  function ModifiedIn(hist: seq<Entry>): nat {
    if hist == [] then 0 else (if hist[0].op == Modified then 1 else 0) + ModifiedIn(hist[1..])
  }

  function ModifiedEntries(h: History): nat {
    if h == [] then 0 else ModifiedIn(h[0].1) + ModifiedEntries(h[1..])
  }

  lemma {:induction false} ChurnCountsModified(hist: seq<Entry>)
    ensures Churn(hist, false) == ModifiedIn(hist)
  {
    if hist != [] {
      ChurnCountsModified(hist[1..]);
    }
  }

  /** Counting modification events, the total churn is the number of modification entries
      of the whole dict: files left out for a zero churn have none. */
  lemma {:induction false} ChurnTotalCounts(h: History)
    ensures SumSeq(ChurnValues(h, false)) == ModifiedEntries(h)
  {
    if h != [] {
      ChurnTotalCounts(h[1..]);
      var c := Churn(h[0].1, false);
      ChurnCountsModified(h[0].1);
      SumSeqConcat(if c > 0 then [c] else [], ChurnValues(h[1..], false));
      assert [c][..0] == [];
    }
  }
}
