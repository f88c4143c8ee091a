/** The created-files line chart, for one player's file history: the files created by a
    target round counted by extension, and the cumulative number of creation entries at
    every round from 0 to the last. */
module CreatedFiles {
  import opened Wrappers
  import opened Text
  import opened OrderedDict
  import opened FileHistory
  import opened CodeReuse

  // ---------------------------------------------------------------- counts by extension

  /** A file counted at `target`: its first creation entry exists and is no later. */
  predicate CountedAt(hist: seq<Entry>, target: int) {
    CreationRound(hist).Some? && CreationRound(hist).value <= target
  }

  /** The grouping extension: the text after the last '.' of the whole path, or
      "no_extension" for a path without a '.'. */
  function Extension(f: string): string {
    if '.' in f then AfterLast(f, ".") else "no_extension"
  }

  /** An extension taken from a path holds no '.', and a path with a '.' ends with '.'
      followed by its extension. */
  lemma ExtensionSpec(f: string)
    ensures '.' in f ==> '.' !in Extension(f) && |Extension(f)| < |f|
                         && f == f[..|f| - |Extension(f)|] + Extension(f)
                         && f[|f| - |Extension(f)| - 1] == '.'
    ensures '.' !in f ==> Extension(f) == "no_extension"
  {
    AfterLastChar(f, '.');
  }

  type Counts = seq<(string, nat)>

  /** `counts.get(ext, 0)` */
  function Count(c: Counts, ext: string): nat {
    match Get<nat>(c, ext)
    case Some(n) => n
    case None => 0
  }

  /** `counts[ext] = counts.get(ext, 0) + 1` */
  function Tally(c: Counts, ext: string): Counts {
    Put<nat>(c, ext, Count(c, ext) + 1)
  }

  /** The counts after the files of `h`, starting from `c`. */
  function CountsFrom(c: Counts, h: History, target: int): Counts
    decreases |h|
  {
    if h == [] then c
    else CountsFrom(if CountedAt(h[0].1, target) then Tally(c, Extension(h[0].0)) else c, h[1..], target)
  }

  /** The per-file loop of `calculate_file_counts_by_extension_at_round`. */
  method CountByExtension(h: History, target: int) returns (counts: Counts)
    ensures counts == CountsFrom([], h, target)
  {
    counts := [];
    for i := 0 to |h|
      invariant CountsFrom(counts, h[i..], target) == CountsFrom([], h, target)
    {
      assert h[i..][1..] == h[i + 1..];
      var (name, hist) := h[i];
      var c := FirstCreation(hist);
      ghost var next := if CountedAt(hist, target) then Tally(counts, Extension(name)) else counts;
      assert CountsFrom(counts, h[i..], target) == CountsFrom(next, h[i + 1..], target);
      if c.Some? && c.value <= target {
        var ext := if '.' in name then AfterLast(name, ".") else "no_extension";
        var n: nat := match Get<nat>(counts, ext) case Some(n) => n case None => 0;
        assert ext == Extension(name) && n == Count(counts, ext);
        counts := Put<nat>(counts, ext, n + 1);
      }
    }
    assert h[|h|..] == [];
  }

  /** The sum of all counts. */
  function Total(c: Counts): nat {
    if c == [] then 0 else c[0].1 + Total(c[1..])
  }

  /** The number of counted files. */
  function CountedFiles(h: History, target: int): nat {
    if h == [] then 0 else (if CountedAt(h[0].1, target) then 1 else 0) + CountedFiles(h[1..], target)
  }

  /** The number of counted files with extension `ext`. */
  function FilesWith(h: History, target: int, ext: string): nat {
    if h == [] then 0
    else (if CountedAt(h[0].1, target) && Extension(h[0].0) == ext then 1 else 0) + FilesWith(h[1..], target, ext)
  }

  lemma {:induction false} TotalUpdate(c: Counts, i: nat, e: (string, nat))
    requires i < |c|
    ensures Total(c[i := e]) + c[i].1 == Total(c) + e.1
  {
    if i > 0 {
      assert c[i := e][1..] == c[1..][i - 1 := e];
      TotalUpdate(c[1..], i - 1, e);
    }
  }

  lemma {:induction false} TotalAppend(c: Counts, e: (string, nat))
    ensures Total(c + [e]) == Total(c) + e.1
  {
    if c != [] {
      assert (c + [e])[1..] == c[1..] + [e];
      TotalAppend(c[1..], e);
    }
  }

  /** One tally adds one to the total. */
  lemma TallyTotal(c: Counts, ext: string)
    ensures Total(Tally(c, ext)) == Total(c) + 1
  {
    match Find<nat>(c, ext)
    case Some(i) =>
      assert Count(c, ext) == c[i].1;
      assert Tally(c, ext) == c[i := (ext, Count(c, ext) + 1)];
      TotalUpdate(c, i, (ext, Count(c, ext) + 1));
    case None =>
      TotalAppend(c, (ext, 1));
  }

  /** The counts sum to the counted files. */
  lemma {:induction false} CountsTotal(c: Counts, h: History, target: int)
    ensures Total(CountsFrom(c, h, target)) == Total(c) + CountedFiles(h, target)
    decreases |h|
  {
    if h != [] {
      if CountedAt(h[0].1, target) {
        TallyTotal(c, Extension(h[0].0));
        CountsTotal(Tally(c, Extension(h[0].0)), h[1..], target);
      } else {
        CountsTotal(c, h[1..], target);
      }
    }
  }

  /** A tally of `e` adds one to the count of `e` alone, and makes `e` a key. */
  lemma TallyGet(c: Counts, e: string, ext: string)
    ensures Count(Tally(c, e), ext) == Count(c, ext) + (if e == ext then 1 else 0)
    ensures Get(Tally(c, e), ext).Some? <==> Get(c, ext).Some? || e == ext
  {
    PutGet<nat>(c, e, Count(c, e) + 1, ext);
  }

  /** Each extension's count is its number of counted files, and an extension is a key
      exactly when it was a key before or some counted file has it. */
  lemma {:induction false} CountsGet(c: Counts, h: History, target: int, ext: string)
    ensures Count(CountsFrom(c, h, target), ext) == Count(c, ext) + FilesWith(h, target, ext)
    ensures Get(CountsFrom(c, h, target), ext).Some? <==> Get(c, ext).Some? || FilesWith(h, target, ext) > 0
    decreases |h|
  {
    if h != [] {
      var e := Extension(h[0].0);
      if CountedAt(h[0].1, target) {
        TallyGet(c, e, ext);
        CountsGet(Tally(c, e), h[1..], target, ext);
      } else {
        CountsGet(c, h[1..], target, ext);
      }
    }
  }

  /** The counts by extension add up to the files created by `target`; every extension's
      count is the number of those files with that extension, and no extension appears
      with a zero count. */
  lemma ExtensionCountsSpec(h: History, target: int, ext: string)
    ensures Total(CountsFrom([], h, target)) == CountedFiles(h, target)
    ensures Count(CountsFrom([], h, target), ext) == FilesWith(h, target, ext)
    ensures Get(CountsFrom([], h, target), ext).Some? <==> FilesWith(h, target, ext) > 0
  {
    CountsTotal([], h, target);
    CountsGet([], h, target, ext);
  }

  /** A later target never counts fewer files. */
  lemma {:induction false} CountedMonotone(h: History, target: int, target': int)
    requires target <= target'
    ensures CountedFiles(h, target) <= CountedFiles(h, target')
  {
    if h != [] {
      CountedMonotone(h[1..], target, target');
    }
  }

  // ---------------------------------------------------------------- cumulative counts

  /** The rounds of a file's creation entries, in order. */
  function CreatedIn(hist: seq<Entry>): seq<int> {
    if hist == [] then []
    else (if hist[0].op == Created then [hist[0].round] else []) + CreatedIn(hist[1..])
  }

  /** The rounds of every creation entry of every file (not only each file's first). */
  function CreatedRounds(h: History): seq<int> {
    if h == [] then [] else CreatedIn(h[0].1) + CreatedRounds(h[1..])
  }

  /** `sum(1 for r in rounds if r <= round)` */
  function AtMost(rounds: seq<int>, r: int): (n: nat)
    ensures n <= |rounds|
  {
    if rounds == [] then 0 else (if rounds[0] <= r then 1 else 0) + AtMost(rounds[1..], r)
  }

  datatype CumulativeRow = CumulativeRow(round: int, totalFiles: nat)

  /** The inner loop over one file's entries. */
  method AppendCreated(acc: seq<int>, hist: seq<Entry>) returns (rounds: seq<int>)
    ensures rounds == acc + CreatedIn(hist)
  {
    rounds := acc;
    for j := 0 to |hist|
      invariant rounds + CreatedIn(hist[j..]) == acc + CreatedIn(hist)
    {
      assert hist[j..][1..] == hist[j + 1..];
      if hist[j].op == Created {
        rounds := rounds + [hist[j].round];
      }
    }
    assert hist[|hist|..] == [];
  }

  /** The outer loop gathering every creation round. */
  method CollectCreated(h: History) returns (rounds: seq<int>)
    ensures rounds == CreatedRounds(h)
  {
    rounds := [];
    for i := 0 to |h|
      invariant rounds + CreatedRounds(h[i..]) == CreatedRounds(h)
    {
      assert h[i..][1..] == h[i + 1..];
      ghost var before := rounds;
      rounds := AppendCreated(rounds, h[i].1);
      assert rounds + CreatedRounds(h[i + 1..]) == before + (CreatedIn(h[i].1) + CreatedRounds(h[i + 1..]));
    }
    assert h[|h|..] == [];
    assert rounds + [] == rounds;
  }

  /** `calculate_cumulative_created_files_per_round` for one file history: one row per
      round from 0 to `maxRound`, counting the creation entries up to that round. */
  method CumulativeCreated(h: History, maxRound: int) returns (rows: seq<CumulativeRow>)
    ensures |rows| == (if maxRound < 0 then 0 else maxRound + 1)
    ensures forall k | 0 <= k < |rows| :: rows[k] == CumulativeRow(k, AtMost(CreatedRounds(h), k))
  {
    var rounds := CollectCreated(h);
    rows := [];
    var r := 0;
    while r <= maxRound
      invariant 0 <= r <= (if maxRound < 0 then 0 else maxRound + 1)
      invariant |rows| == r
      invariant forall k | 0 <= k < r :: rows[k] == CumulativeRow(k, AtMost(rounds, k))
      decreases maxRound - r
    {
      rows := rows + [CumulativeRow(r, AtMost(rounds, r))];
      r := r + 1;
    }
  }

  /** The cumulative count never decreases from one round to a later one. */
  lemma {:induction false} AtMostMonotone(rounds: seq<int>, r: int, r': int)
    requires r <= r'
    ensures AtMost(rounds, r) <= AtMost(rounds, r')
  {
    if rounds != [] {
      AtMostMonotone(rounds[1..], r, r');
    }
  }

  lemma {:induction false} AtMostConcat(a: seq<int>, b: seq<int>, r: int)
    ensures AtMost(a + b, r) == AtMost(a, r) + AtMost(b, r)
  {
    if a != [] {
      assert (a + b)[1..] == a[1..] + b && (a + b)[0] == a[0];
      AtMostConcat(a[1..], b, r);
    } else {
      assert a + b == b;
    }
  }

  /** A file created by round `r` contributes at least its first creation entry. */
  lemma {:induction false} CountedHasCreation(hist: seq<Entry>, r: int)
    requires CountedAt(hist, r)
    ensures AtMost(CreatedIn(hist), r) >= 1
  {
    var first := if hist[0].op == Created then [hist[0].round] else [];
    assert CreatedIn(hist) == first + CreatedIn(hist[1..]);
    AtMostConcat(first, CreatedIn(hist[1..]), r);
    if hist[0].op != Created {
      CountedHasCreation(hist[1..], r);
    } else {
      assert AtMost(first, r) == 1;
    }
  }

  /** The cumulative count at round `r` is at least the number of files created by `r`,
      since it counts every creation entry and each such file has one. */
  lemma {:induction false} CumulativeCoversCounted(h: History, r: int)
    ensures CountedFiles(h, r) <= AtMost(CreatedRounds(h), r)
  {
    if h != [] {
      CumulativeCoversCounted(h[1..], r);
      AtMostConcat(CreatedIn(h[0].1), CreatedRounds(h[1..]), r);
      if CountedAt(h[0].1, r) {
        CountedHasCreation(h[0].1, r);
      }
    }
  }

  /** Once every creation entry lies at or before round `r`, the count is all of them. */
  lemma {:induction false} AtMostAll(rounds: seq<int>, r: int)
    requires forall k | 0 <= k < |rounds| :: rounds[k] <= r
    ensures AtMost(rounds, r) == |rounds|
  {
    if rounds != [] {
      AtMostAll(rounds[1..], r);
    }
  }
}
