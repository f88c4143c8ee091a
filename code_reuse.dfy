/** The two code-organisation metrics computed by loops that fill dicts and sets: how many
    created files are reused in a later round, and how many surviving file names share a
    leading-word prefix (overall and round by round). */
module CodeReuse {
  import opened Wrappers
  import opened Text
  import opened OrderedDict
  import opened FileHistory
  import opened CodeOrganization

  // ---------------------------------------------------------------- file reuse

  /** The round of the first creation entry, if there is one. */
  function CreationRound(hist: seq<Entry>): Option<int> {
    if hist == [] then None
    else if hist[0].op == Created then Some(hist[0].round)
    else CreationRound(hist[1..])
  }

  /** An entry that touches the file (modification, reference or rename) after round `c`. */
  predicate IsReuse(e: Entry, c: int) {
    e.round > c && (e.op == Modified || e.op == Referenced || e.op == Renamed)
  }

  predicate ReusedAfter(hist: seq<Entry>, c: int) {
    hist != [] && (IsReuse(hist[0], c) || ReusedAfter(hist[1..], c))
  }

  /** The first-creation search loop. */
  method FirstCreation(hist: seq<Entry>) returns (c: Option<int>)
    ensures c == CreationRound(hist)
  {
    for i := 0 to |hist|
      invariant CreationRound(hist[i..]) == CreationRound(hist)
    {
      assert hist[i..][1..] == hist[i + 1..];
      if hist[i].op == Created {
        return Some(hist[i].round);
      }
    }
    assert hist[|hist|..] == [];
    return None;
  }

  /** The later-touch search loop. */
  method TouchedAfter(hist: seq<Entry>, c: int) returns (b: bool)
    ensures b == ReusedAfter(hist, c)
  {
    for i := 0 to |hist|
      invariant ReusedAfter(hist[i..], c) == ReusedAfter(hist, c)
    {
      assert hist[i..][1..] == hist[i + 1..];
      if IsReuse(hist[i], c) {
        return true;
      }
    }
    assert hist[|hist|..] == [];
    return false;
  }

  /** The names given a creation round, and those of them touched after it. */
  function CreatedNames(h: History): set<string> {
    if h == [] then {}
    else CreatedNames(h[..|h| - 1]) + (if CreationRound(h[|h| - 1].1).Some? then {h[|h| - 1].0} else {})
  }

  function ReusedNames(h: History): set<string> {
    if h == [] then {}
    else
      var e := h[|h| - 1];
      ReusedNames(h[..|h| - 1])
      + (if CreationRound(e.1).Some? && ReusedAfter(e.1, CreationRound(e.1).value) then {e.0} else {})
  }

  datatype ReuseReport = ReuseReport(created: nat, reused: nat, ratio: Option<real>)

  function ReuseOf(h: History): ReuseReport {
    var c, r := CreatedNames(h), ReusedNames(h);
    if |c| == 0 then ReuseReport(0, 0, None) else ReuseReport(|c|, |r|, Some(|r| as real / |c| as real))
  }

  /** `calculate_file_reuse_ratio` */
  method FileReuseRatio(h: History) returns (r: ReuseReport)
    ensures r == ReuseOf(h)
  {
    if h == [] {
      return ReuseReport(0, 0, None);
    }
    var created, reused := ScanReuse(h);
    assert |created.Keys| == |created|;
    if |created| == 0 {
      return ReuseReport(0, 0, None);
    }
    return ReuseReport(|created|, |reused|, Some(|reused| as real / |created| as real));
  }

  /** The loop filling `created_files` (name to creation round) and `reused_files`. */
  method ScanReuse(h: History) returns (created: map<string, int>, reused: set<string>)
    ensures created.Keys == CreatedNames(h) && reused == ReusedNames(h)
  {
    created, reused := map[], {};
    for i := 0 to |h|
      invariant created.Keys == CreatedNames(h[..i]) && reused == ReusedNames(h[..i])
    {
      ReuseStep(h, i);
      var name, hist := h[i].0, h[i].1;
      if hist != [] {
        var c := FirstCreation(hist);
        if c.Some? {
          created := created[name := c.value];
          var t := TouchedAfter(hist, c.value);
          if t {
            reused := reused + {name};
          }
        }
      }
    }
    assert h[..|h|] == h;
  }

  /** One more file: its name joins the created names when it has a creation entry, and the
      reused names when it is also touched later. */
  lemma ReuseStep(h: History, i: nat)
    requires i < |h|
    ensures CreatedNames(h[..i + 1])
            == CreatedNames(h[..i]) + (if CreationRound(h[i].1).Some? then {h[i].0} else {})
    ensures ReusedNames(h[..i + 1])
            == ReusedNames(h[..i])
               + (if CreationRound(h[i].1).Some? && ReusedAfter(h[i].1, CreationRound(h[i].1).value)
                  then {h[i].0} else {})
  {
    assert h[..i + 1][..i] == h[..i];
  }

  /** Only created files count as reused. */
  lemma {:induction false} ReusedAreCreated(h: History)
    ensures ReusedNames(h) <= CreatedNames(h)
  {
    if h != [] {
      ReusedAreCreated(h[..|h| - 1]);
    }
  }

  /** A name is reused exactly when one of its histories has a creation entry and a later
      modification, reference or rename. */
  lemma {:induction false} ReusedNamesIff(h: History, name: string)
    ensures name in ReusedNames(h) <==>
              exists i | 0 <= i < |h| :: h[i].0 == name && CreationRound(h[i].1).Some?
                                        && ReusedAfter(h[i].1, CreationRound(h[i].1).value)
  {
    if h != [] {
      var init := h[..|h| - 1];
      ReusedNamesIff(init, name);
      assert forall i | 0 <= i < |init| :: init[i] == h[i];
    }
  }

  /** A later touch is some entry after the creation round that modifies, references or
      renames the file. */
  lemma {:induction false} ReusedAfterIff(hist: seq<Entry>, c: int)
    ensures ReusedAfter(hist, c) <==> exists i | 0 <= i < |hist| :: IsReuse(hist[i], c)
  {
    if hist != [] {
      var rest := hist[1..];
      ReusedAfterIff(rest, c);
      assert forall i | 0 <= i < |rest| :: rest[i] == hist[i + 1];
      if exists i | 0 <= i < |hist| :: IsReuse(hist[i], c) {
        var i :| 0 <= i < |hist| && IsReuse(hist[i], c);
        if i > 0 {
          assert IsReuse(rest[i - 1], c);
        }
      }
    }
  }

  /** The creation round is the round of the first creation entry. */
  lemma {:induction false} CreationRoundSpec(hist: seq<Entry>)
    ensures CreationRound(hist).None? <==> forall i | 0 <= i < |hist| :: hist[i].op != Created
    ensures CreationRound(hist).Some? ==>
              exists i | 0 <= i < |hist| :: hist[i].op == Created && hist[i].round == CreationRound(hist).value
                                          && forall j | 0 <= j < i :: hist[j].op != Created
  {
    if hist != [] && hist[0].op != Created {
      var rest := hist[1..];
      CreationRoundSpec(rest);
      assert forall i | 0 <= i < |rest| :: rest[i] == hist[i + 1];
      if CreationRound(rest).Some? {
        var i :| 0 <= i < |rest| && rest[i].op == Created && rest[i].round == CreationRound(rest).value
                 && forall j | 0 <= j < i :: rest[j].op != Created;
        assert hist[i + 1] == rest[i];
      }
    } else if hist != [] {
      assert hist[0].op == Created && hist[0].round == CreationRound(hist).value;
    }
  }

  /** No ratio exactly when no file was ever created; otherwise at most every created file
      is reused, so the ratio lies in [0, 1]. */
  lemma ReuseOfSpec(h: History)
    ensures ReuseOf(h).ratio.None? <==> CreatedNames(h) == {}
    ensures ReuseOf(h).reused <= ReuseOf(h).created
    ensures ReuseOf(h).ratio.Some? ==> 0.0 <= ReuseOf(h).ratio.value <= 1.0
  {
    ReusedAreCreated(h);
    var c, r := CreatedNames(h), ReusedNames(h);
    SubsetSize(r, c);
    if |c| > 0 {
      RatioInUnit(|r|, |c|);
    }
  }

  lemma SubsetSize(a: set<string>, b: set<string>)
    requires a <= b
    ensures |a| <= |b|
  {
    assert b == a + (b - a);
  }

  // ---------------------------------------------------------------- filename redundancy

  /** `re.match(r"^([a-zA-Z_]+)", s)`: the leading run of ASCII letters and underscores. */
  function LeadingWord(s: string): (w: string)
    ensures |w| <= |s| && w == s[..|w|]
  {
    if s != [] && (IsAsciiLetter(s[0]) || s[0] == '_') then [s[0]] + LeadingWord(s[1..]) else []
  }

  /** The lower-cased prefix of a file's base name, or none when it starts otherwise. */
  function NamePrefix(f: string): Option<string> {
    var w := LeadingWord(Basename(f));
    if w == [] then None else Some(LowerString(w))
  }

  /** Files grouped by prefix, groups in the order of their first file. */
  type Groups = seq<(string, seq<string>)>

  function GroupOf(g: Groups, p: string): seq<string> {
    match Get(g, p)
    case Some(fs) => fs
    case None => []
  }

  function AddName(g: Groups, f: string): Groups {
    match NamePrefix(f)
    case None => g
    case Some(p) => Put(g, p, GroupOf(g, p) + [f])
  }

  /** The groups after adding `fs` in order to `g`. */
  function GroupFrom(g: Groups, fs: seq<string>): Groups
    decreases |fs|
  {
    if fs == [] then g else GroupFrom(AddName(g, fs[0]), fs[1..])
  }

  /** Files beyond the first of every group of two or more. */
  function Redundant(g: Groups): nat {
    if g == [] then 0 else (if |g[0].1| > 1 then |g[0].1| - 1 else 0) + Redundant(g[1..])
  }

  datatype RedundancyReport = RedundancyReport(total: nat, redundant: nat, ratio: Option<real>)

  /** The surviving names, in dict order. */
  function ExistingNames(h: History): seq<string> { KeysOf(Existing(h)) }

  function RedundancyOf(h: History): RedundancyReport {
    var fs := ExistingNames(h);
    if |fs| < 2 then RedundancyReport(|fs|, 0, None)
    else
      var red := Redundant(GroupFrom([], fs));
      RedundancyReport(|fs|, red, Some(red as real / |fs| as real))
  }

  /** `calculate_filename_redundancy` */
  method FilenameRedundancy(h: History) returns (r: RedundancyReport)
    ensures r == RedundancyOf(h)
  {
    var existing := ExistingNames(h);
    if |existing| < 2 {
      return RedundancyReport(|existing|, 0, None);
    }
    var prefixes: Groups := [];
    for i := 0 to |existing|
      invariant GroupFrom(prefixes, existing[i..]) == GroupFrom([], existing)
    {
      assert existing[i..][1..] == existing[i + 1..];
      var f := existing[i];
      var base := Basename(f);
      var w := LeadingWord(base);
      if w != [] {
        var p := LowerString(w);
        var group := if Get(prefixes, p).Some? then Get(prefixes, p).value else [];
        prefixes := Put(prefixes, p, group + [f]);
      }
    }
    assert existing[|existing|..] == [];
    var redundant := 0;
    for j := 0 to |prefixes|
      invariant redundant + Redundant(prefixes[j..]) == Redundant(prefixes)
    {
      assert prefixes[j..][1..] == prefixes[j + 1..];
      if |prefixes[j].1| > 1 {
        redundant := redundant + |prefixes[j].1| - 1;
      }
    }
    assert prefixes[|prefixes|..] == [];
    return RedundancyReport(|existing|, redundant, Some(redundant as real / |existing| as real));
  }

  /** The number of names with a prefix. */
  function Matched(fs: seq<string>): nat {
    if fs == [] then 0 else (if NamePrefix(fs[0]).Some? then 1 else 0) + Matched(fs[1..])
  }

  /** The number of files over all groups. */
  function Size(g: Groups): nat {
    if g == [] then 0 else |g[0].1| + Size(g[1..])
  }

  predicate NoEmptyGroup(g: Groups) {
    forall i | 0 <= i < |g| :: g[i].1 != []
  }

  lemma {:induction false} SizeAppend(g: Groups, x: (string, seq<string>))
    ensures Size(g + [x]) == Size(g) + |x.1|
  {
    if g != [] {
      assert (g + [x])[1..] == g[1..] + [x];
      SizeAppend(g[1..], x);
    }
  }

  lemma {:induction false} SizeUpdate(g: Groups, i: nat, x: (string, seq<string>))
    requires i < |g|
    ensures Size(g[i := x]) == Size(g) - |g[i].1| + |x.1|
  {
    if i > 0 {
      assert g[i := x][1..] == g[1..][i - 1 := x];
      SizeUpdate(g[1..], i - 1, x);
    } else {
      assert g[i := x][1..] == g[1..];
    }
  }

  /** Adding a name grows the groups by one file exactly when it has a prefix, keeps the
      prefixes unique and leaves no group empty. */
  lemma AddNameSpec(g: Groups, f: string)
    requires UniqueKeys(g) && NoEmptyGroup(g)
    ensures UniqueKeys(AddName(g, f)) && NoEmptyGroup(AddName(g, f))
    ensures Size(AddName(g, f)) == Size(g) + (if NamePrefix(f).Some? then 1 else 0)
  {
    match NamePrefix(f)
    case None =>
    case Some(p) =>
      var v := GroupOf(g, p) + [f];
      PutUnique(g, p, v);
      match Find(g, p)
      case Some(i) =>
        SizeUpdate(g, i, (p, v));
        assert GroupOf(g, p) == g[i].1;
      case None =>
        SizeAppend(g, (p, v));
  }

  lemma {:induction false} GroupFromSpec(g: Groups, fs: seq<string>)
    requires UniqueKeys(g) && NoEmptyGroup(g)
    ensures UniqueKeys(GroupFrom(g, fs)) && NoEmptyGroup(GroupFrom(g, fs))
    ensures Size(GroupFrom(g, fs)) == Size(g) + Matched(fs)
    decreases |fs|
  {
    if fs != [] {
      AddNameSpec(g, fs[0]);
      GroupFromSpec(AddName(g, fs[0]), fs[1..]);
    }
  }

  /** Without empty groups, the redundant files are all files but one per group. */
  lemma {:induction false} RedundantBySize(g: Groups)
    requires NoEmptyGroup(g)
    ensures Redundant(g) + |g| == Size(g)
  {
    if g != [] {
      assert forall i | 0 <= i < |g[1..]| :: g[1..][i] == g[i + 1];
      RedundantBySize(g[1..]);
    }
  }

  lemma {:induction false} MatchedAtMost(fs: seq<string>)
    ensures Matched(fs) <= |fs|
  {
    if fs != [] {
      MatchedAtMost(fs[1..]);
    }
  }

  /** No ratio exactly when fewer than two files survive; otherwise the redundant files are
      the files with a prefix less one per prefix, fewer than all surviving files, so the
      ratio lies in [0, 1). */
  lemma RedundancyOfSpec(h: History)
    ensures RedundancyOf(h).ratio.None? <==> |ExistingNames(h)| < 2
    ensures RedundancyOf(h).total == |ExistingNames(h)|
    ensures var fs := ExistingNames(h);
            |fs| >= 2 ==>
              RedundancyOf(h).redundant + |GroupFrom([], fs)| == Matched(fs)
              && RedundancyOf(h).redundant < |fs|
              && 0.0 <= RedundancyOf(h).ratio.value < 1.0
  {
    var fs := ExistingNames(h);
    if |fs| >= 2 {
      var g := GroupFrom([], fs);
      GroupFromSpec([], fs);
      RedundantBySize(g);
      MatchedAtMost(fs);
      var red := Redundant(g);
      assert red < |fs| by {
        if Matched(fs) > 0 {
          assert g != [];
        }
      }
      RatioBelowOne(red, |fs|);
    }
  }

  lemma RatioBelowOne(count: nat, total: nat)
    requires count < total
    ensures 0.0 <= count as real / total as real < 1.0
  {
  }

  // ---------------------------------------------------------------- redundancy per round

  /** The entries of a history up to round `r`. */
  function UpTo(hist: seq<Entry>, r: int): (s: seq<Entry>)
    ensures forall i | 0 <= i < |s| :: s[i].round <= r && s[i] in hist
  {
    if hist == [] then []
    else
      var rest := UpTo(hist[1..], r);
      assert forall i | 0 <= i < |rest| :: rest[i] in hist;
      (if hist[0].round <= r then [hist[0]] else []) + rest
  }

  /** The snapshot of `h` at round `r`, built onto `acc`: files with an entry up to `r`,
      each with those entries. */
  function SnapshotFrom(acc: History, h: History, r: int): History
    decreases |h|
  {
    if h == [] then acc
    else
      var rel := UpTo(h[0].1, r);
      SnapshotFrom(if rel != [] then Put(acc, h[0].0, rel) else acc, h[1..], r)
  }

  /** The files of a history with at least one entry. */
  function NonEmpty(h: History): (r: History)
    ensures AllNonEmpty(r)
  {
    if h == [] then []
    else
      var rest := NonEmpty(h[1..]);
      assert forall i | 1 <= i < |[h[0]] + rest| :: ([h[0]] + rest)[i] == rest[i - 1];
      (if h[0].1 != [] then [h[0]] else []) + rest
  }

  datatype RoundRedundancy = RoundRedundancy(round: int, ratio: real, total: nat)

  /** The redundancy report of the snapshot at round `r`. */
  function ReportAt(h: History, r: int): RedundancyReport {
    RedundancyOf(SnapshotFrom([], h, r))
  }

  /** The reports of rounds 1 to `top`, the report of round `k + 1` at index `k`. */
  function Reports(h: History, top: int): seq<RedundancyReport> {
    seq(if top < 0 then 0 else top, k => ReportAt(h, k + 1))
  }

  /** The row of round `r`, when its report has a ratio. */
  function Row(r: int, s: RedundancyReport): seq<RoundRedundancy> {
    if s.ratio.Some? then [RoundRedundancy(r, s.ratio.value, s.total)] else []
  }

  /** The rows of the reports `reps`, the first of them being the report of round `r`. */
  function RowsOf(reps: seq<RedundancyReport>, r: int): seq<RoundRedundancy>
    decreases |reps|
  {
    if reps == [] then [] else Row(r, reps[0]) + RowsOf(reps[1..], r + 1)
  }

  function RedundancyRows(h: History): Result<seq<RoundRedundancy>> {
    if h == [] then Ok([])
    else if NonEmpty(h) == [] then Fail(ValueError("max() arg is an empty sequence"))
    else Ok(RowsOf(Reports(h, LatestRound(NonEmpty(h))), 1))
  }

  /** The snapshot-building loop. */
  method Snapshot(h: History, r: int) returns (snap: History)
    ensures snap == SnapshotFrom([], h, r)
  {
    snap := [];
    for i := 0 to |h|
      invariant SnapshotFrom(snap, h[i..], r) == SnapshotFrom([], h, r)
    {
      assert h[i..][1..] == h[i + 1..];
      var relevant := UpTo(h[i].1, r);
      if relevant != [] {
        snap := Put(snap, h[i].0, relevant);
      }
    }
    assert h[|h|..] == [];
  }

  /** `calculate_redundancy_over_rounds`: one row per round from 1 to the latest round
      whose snapshot has at least two surviving files. */
  method RedundancyOverRounds(h: History) returns (res: Result<seq<RoundRedundancy>>)
    ensures res == RedundancyRows(h)
  {
    if h == [] {
      return Ok([]);
    }
    var ne := NonEmpty(h);
    if ne == [] {
      return Fail(ValueError("max() arg is an empty sequence"));
    }
    var results := RoundRows(h, LatestRound(ne));
    return Ok(results);
  }

  /** The loop over rounds 1 to `top`. */
  method RoundRows(h: History, top: int) returns (results: seq<RoundRedundancy>)
    ensures results == RowsOf(Reports(h, top), 1)
  {
    ghost var reps := Reports(h, top);
    results := [];
    var r := 1;
    while r <= top
      invariant 1 <= r <= |reps| + 1
      invariant results + RowsOf(reps[r - 1..], r) == RowsOf(reps, 1)
      decreases top - r + 1
    {
      var row := RoundRow(h, r);
      assert row == Row(r, reps[r - 1]);
      RowsStep(results, reps, r - 1);
      results := results + row;
      r := r + 1;
    }
    assert reps[r - 1..] == [];
    assert results + RowsOf(reps[r - 1..], r) == results;
  }

  /** One round of the loop: the row of round `r`, when its snapshot has a ratio. */
  method RoundRow(h: History, r: int) returns (row: seq<RoundRedundancy>)
    ensures row == Row(r, ReportAt(h, r))
  {
    var snap := Snapshot(h, r);
    var stats := FilenameRedundancy(snap);
    if stats.ratio.Some? {
      row := [RoundRedundancy(r, stats.ratio.value, stats.total)];
    } else {
      row := [];
    }
  }

  lemma RowsStep(results: seq<RoundRedundancy>, reps: seq<RedundancyReport>, i: nat)
    requires i < |reps|
    ensures results + RowsOf(reps[i..], i + 1)
            == (results + Row(i + 1, reps[i])) + RowsOf(reps[i + 1..], i + 2)
  {
    assert reps[i..][1..] == reps[i + 1..];
  }

  /** A report that has a ratio covers at least two files, and its ratio lies in [0, 1). */
  predicate Sound(s: RedundancyReport) {
    s.ratio.Some? ==> s.total >= 2 && 0.0 <= s.ratio.value < 1.0
  }

  /** Some row is about round `q`. */
  predicate HasRound(rows: seq<RoundRedundancy>, q: int) {
    exists i | 0 <= i < |rows| :: rows[i].round == q
  }

  /** The rows of sound reports carry rounds from `r` on, in increasing order, each with a
      ratio in [0, 1) over at least two files. */
  lemma {:induction false} RowsOfSpec(reps: seq<RedundancyReport>, r: int)
    requires forall k | 0 <= k < |reps| :: Sound(reps[k])
    ensures forall i | 0 <= i < |RowsOf(reps, r)| ::
              r <= RowsOf(reps, r)[i].round < r + |reps| && RowsOf(reps, r)[i].total >= 2
              && 0.0 <= RowsOf(reps, r)[i].ratio < 1.0
    ensures forall i, j | 0 <= i < j < |RowsOf(reps, r)| ::
              RowsOf(reps, r)[i].round < RowsOf(reps, r)[j].round
    decreases |reps|
  {
    if reps != [] {
      assert Sound(reps[0]);
      RowsOfSpec(reps[1..], r + 1);
    }
  }

  /** The rows of `reps` carry rounds from `r` to `r + |reps| - 1`. */
  lemma {:induction false} RowsOfRounds(reps: seq<RedundancyReport>, r: int)
    ensures forall i | 0 <= i < |RowsOf(reps, r)| :: r <= RowsOf(reps, r)[i].round < r + |reps|
    decreases |reps|
  {
    if reps != [] {
      RowsOfRounds(reps[1..], r + 1);
    }
  }

  /** A concatenation has a row about `q` exactly when one of its parts has. */
  lemma HasRoundConcat(x: seq<RoundRedundancy>, y: seq<RoundRedundancy>, q: int)
    ensures HasRound(x + y, q) <==> HasRound(x, q) || HasRound(y, q)
  {
    if HasRound(x + y, q) {
      var i :| 0 <= i < |x + y| && (x + y)[i].round == q;
      if i >= |x| {
        assert y[i - |x|] == (x + y)[i];
      }
    }
    if HasRound(y, q) {
      var i :| 0 <= i < |y| && y[i].round == q;
      assert (x + y)[i + |x|] == y[i];
    }
    if HasRound(x, q) {
      var i :| 0 <= i < |x| && x[i].round == q;
      assert (x + y)[i] == x[i];
    }
  }

  /** A round has a row exactly when its report has a ratio. */
  lemma {:induction false} RowsOfHas(reps: seq<RedundancyReport>, r: int, k: int)
    requires 0 <= k < |reps|
    ensures HasRound(RowsOf(reps, r), r + k) <==> reps[k].ratio.Some?
    decreases |reps|
  {
    var rest := RowsOf(reps[1..], r + 1);
    assert RowsOf(reps, r) == Row(r, reps[0]) + rest;
    HasRoundConcat(Row(r, reps[0]), rest, r + k);
    if k > 0 {
      RowsOfHas(reps[1..], r + 1, k - 1);
      assert reps[1..][k - 1] == reps[k];
      assert !HasRound(Row(r, reps[0]), r + k);
    } else {
      RowsOfRounds(reps[1..], r + 1);
      assert !HasRound(rest, r);
      assert HasRound(Row(r, reps[0]), r) <==> reps[0].ratio.Some? by {
        if reps[0].ratio.Some? {
          assert Row(r, reps[0])[0].round == r;
        }
      }
    }
  }

  /** Every row of rounds 1 to `top` is a round in that range, in increasing order, with a
      ratio in [0, 1) over at least two files. */
  lemma RoundRowsSpec(h: History, top: int)
    ensures forall i | 0 <= i < |RowsOf(Reports(h, top), 1)| ::
              1 <= RowsOf(Reports(h, top), 1)[i].round <= top
              && RowsOf(Reports(h, top), 1)[i].total >= 2
              && 0.0 <= RowsOf(Reports(h, top), 1)[i].ratio < 1.0
    ensures forall i, j | 0 <= i < j < |RowsOf(Reports(h, top), 1)| ::
              RowsOf(Reports(h, top), 1)[i].round < RowsOf(Reports(h, top), 1)[j].round
  {
    var reps := Reports(h, top);
    forall k | 0 <= k < |reps| ensures Sound(reps[k]) {
      ReportSound(h, k + 1);
    }
    RowsOfSpec(reps, 1);
  }

  lemma ReportSound(h: History, r: int)
    ensures Sound(ReportAt(h, r))
  {
    RedundancyOfSpec(SnapshotFrom([], h, r));
  }

  /** Every round from 1 to `top` has a row exactly when at least two files survive in
      its snapshot. */
  lemma RoundHasRow(h: History, top: int, q: int)
    requires 1 <= q <= top
    ensures HasRound(RowsOf(Reports(h, top), 1), q) <==> |ExistingNames(SnapshotFrom([], h, q))| >= 2
  {
    var reps := Reports(h, top);
    var snap := SnapshotFrom([], h, q);
    assert reps[q - 1] == RedundancyOf(snap);
    assert RedundancyOf(snap).ratio.Some? <==> |ExistingNames(snap)| >= 2 by {
      RedundancyOfSpec(snap);
    }
    RowsOfHas(reps, 1, q - 1);
  }

  /** A non-empty history with no entry after round `r`. */
  predicate Within(hist: seq<Entry>, r: int) {
    hist != [] && forall k | 0 <= k < |hist| :: hist[k].round <= r
  }

  /** A snapshot holds only entries up to its round, and no empty history. */
  lemma {:induction false} SnapshotSpec(acc: History, h: History, r: int)
    requires forall i | 0 <= i < |acc| :: Within(acc[i].1, r)
    ensures forall i | 0 <= i < |SnapshotFrom(acc, h, r)| :: Within(SnapshotFrom(acc, h, r)[i].1, r)
    decreases |h|
  {
    if h != [] {
      var rel := UpTo(h[0].1, r);
      if rel != [] {
        var acc' := Put(acc, h[0].0, rel);
        PutEntries(acc, h[0].0, rel);
        assert Within(rel, r);
        forall i | 0 <= i < |acc'| ensures Within(acc'[i].1, r) {
          if acc'[i] != (h[0].0, rel) {
            assert acc'[i] == acc[i];
          }
        }
        SnapshotSpec(acc', h[1..], r);
      } else {
        SnapshotSpec(acc, h[1..], r);
      }
    }
  }
}
