/** The per-round line-change chart: the lines a round's diff adds or removes, split into
    the README_agent.md file, the arena's submission and everything else, collected per
    round for rounds 1 to 15 and averaged with the 95% trimmed mean. */
module PerRoundChanges {
  import opened Wrappers
  import opened Text
  import opened TrimmedMean

  const Rounds: nat := 15

  // ---------------------------------------------------------------- one diff

  datatype LineKind = AddedLine | RemovedLine | ContextLine

  /** A file of a parsed unified diff: its path and the kinds of the lines of its hunks, in
      order. */
  datatype DiffFile = DiffFile(path: string, lines: seq<LineKind>)

  datatype Bucket = Readme | Submission | Others

  /** The key each bucket has in the result. */
  function BucketKey(b: Bucket): string {
    match b
    case Readme => "README_agent.md"
    case Submission => "submission"
    case Others => "others"
  }

  /** The bucket of a path: exactly "README_agent.md", else any path containing the arena's
      submission name, else the rest. */
  function Classify(path: string, submission: string): Bucket {
    if path == "README_agent.md" then Readme
    else if Contains(path, submission) then Submission
    else Others
  }

  datatype Changes = Changes(readme: nat, submission: nat, others: nat)

  function Field(c: Changes, b: Bucket): nat {
    match b
    case Readme => c.readme
    case Submission => c.submission
    case Others => c.others
  }

  function AddTo(c: Changes, b: Bucket, n: nat): Changes {
    match b
    case Readme => c.(readme := c.readme + n)
    case Submission => c.(submission := c.submission + n)
    case Others => c.(others := c.others + n)
  }

  /** The added or removed lines of a file. */
  function ChangedLines(lines: seq<LineKind>): nat {
    if lines == [] then 0 else (if lines[0] != ContextLine then 1 else 0) + ChangedLines(lines[1..])
  }

  /** The counting loop over one file's lines. */
  method CountChanged(lines: seq<LineKind>) returns (cnt: nat)
    ensures cnt == ChangedLines(lines)
  {
    cnt := 0;
    for i := 0 to |lines|
      invariant cnt + ChangedLines(lines[i..]) == ChangedLines(lines)
    {
      assert lines[i..][1..] == lines[i + 1..];
      if lines[i] == AddedLine || lines[i] == RemovedLine {
        cnt := cnt + 1;
      }
    }
    assert lines[|lines|..] == [];
  }

  /** The counts after the files `files`, starting from `c`. */
  function ChangesFrom(c: Changes, files: seq<DiffFile>, submission: string): Changes
    decreases |files|
  {
    if files == [] then c
    else ChangesFrom(AddTo(c, Classify(files[0].path, submission), ChangedLines(files[0].lines)), files[1..], submission)
  }

  /** `_lines_changed_from_patch_text`: `None` stands for a diff the parser rejects, which
      gives all three counts zero; an arena without a submission name is a KeyError. */
  method LinesChanged(patch: Option<seq<DiffFile>>, arena: string, submissions: map<string, string>)
    returns (r: Result<Changes>)
    ensures patch.None? ==> r == Ok(Changes(0, 0, 0))
    ensures patch.Some? && arena !in submissions ==> r == Fail(KeyError(arena))
    ensures patch.Some? && arena in submissions ==>
              r == Ok(ChangesFrom(Changes(0, 0, 0), patch.value, submissions[arena]))
  {
    var rv := Changes(0, 0, 0);
    if patch.None? {
      return Ok(rv);
    }
    if arena !in submissions {
      return Fail(KeyError(arena));
    }
    var submission := submissions[arena];
    var files := patch.value;
    for i := 0 to |files|
      invariant ChangesFrom(rv, files[i..], submission) == ChangesFrom(Changes(0, 0, 0), files, submission)
    {
      ChangesStep(rv, files, i, submission);
      var cnt := CountChanged(files[i].lines);
      var filename := files[i].path;
      if filename == "README_agent.md" {
        rv := rv.(readme := rv.readme + cnt);
      } else if Contains(filename, submission) {
        rv := rv.(submission := rv.submission + cnt);
      } else {
        rv := rv.(others := rv.others + cnt);
      }
    }
    assert files[|files|..] == [];
    return Ok(rv);
  }

  /** The counts after the files from `i` on, past file `i`. */
  lemma ChangesStep(c: Changes, files: seq<DiffFile>, i: nat, submission: string)
    requires i < |files|
    ensures ChangesFrom(c, files[i..], submission)
            == ChangesFrom(AddTo(c, Classify(files[i].path, submission), ChangedLines(files[i].lines)),
                           files[i + 1..], submission)
  {
    assert files[i..][1..] == files[i + 1..];
  }

  /** The changed lines of the files in bucket `b`. */
  function InBucket(files: seq<DiffFile>, submission: string, b: Bucket): nat {
    if files == [] then 0
    else (if Classify(files[0].path, submission) == b then ChangedLines(files[0].lines) else 0)
         + InBucket(files[1..], submission, b)
  }

  /** All changed lines of the diff. */
  function TotalChanged(files: seq<DiffFile>): nat {
    if files == [] then 0 else ChangedLines(files[0].lines) + TotalChanged(files[1..])
  }

  /** Each bucket's count is the changed lines of exactly the files classified into it. */
  lemma {:induction false} ChangesFromBuckets(c: Changes, files: seq<DiffFile>, submission: string, b: Bucket)
    ensures Field(ChangesFrom(c, files, submission), b) == Field(c, b) + InBucket(files, submission, b)
    decreases |files|
  {
    if files != [] {
      ChangesFromBuckets(AddTo(c, Classify(files[0].path, submission), ChangedLines(files[0].lines)),
                         files[1..], submission, b);
    }
  }

  /** Every changed line is counted in exactly one bucket. */
  lemma {:induction false} BucketsPartition(files: seq<DiffFile>, submission: string)
    ensures InBucket(files, submission, Readme) + InBucket(files, submission, Submission)
            + InBucket(files, submission, Others) == TotalChanged(files)
  {
    if files != [] {
      BucketsPartition(files[1..], submission);
    }
  }

  /** The three counts of a parsed diff add up to its changed lines, and each is the sum
      over the files of its bucket. */
  lemma LinesChangedSpec(files: seq<DiffFile>, submission: string)
    ensures var c := ChangesFrom(Changes(0, 0, 0), files, submission);
      c.readme + c.submission + c.others == TotalChanged(files)
      && c.readme == InBucket(files, submission, Readme)
      && c.submission == InBucket(files, submission, Submission)
      && c.others == InBucket(files, submission, Others)
  {
    ChangesFromBuckets(Changes(0, 0, 0), files, submission, Readme);
    ChangesFromBuckets(Changes(0, 0, 0), files, submission, Submission);
    ChangesFromBuckets(Changes(0, 0, 0), files, submission, Others);
    BucketsPartition(files, submission);
  }

  /** A README_agent.md file is never counted as the submission, even when its path holds
      the submission name. */
  lemma ReadmeFirst(submission: string)
    ensures Classify("README_agent.md", submission) == Readme
  {
  }

  // ---------------------------------------------------------------- changes files

  /** `changes_r(\d+)\.json` matches at `k`. */
  predicate MatchAt(name: string, k: nat) {
    HasAt(name, "changes_r", k) && DigitRun(name, k + 9) > 0
    && HasAt(name, ".json", k + 9 + DigitRun(name, k + 9))
  }

  /** `re.search(r"changes_r(\d+)\.json", name)` from position `k`: the leftmost match, read
      as the round number. */
  function ChangesRoundFrom(name: string, k: nat): (r: Option<nat>)
    requires k <= |name|
    decreases |name| - k
  {
    if MatchAt(name, k) then Some(RunValue(name, k + 9))
    else if k == |name| then None
    else ChangesRoundFrom(name, k + 1)
  }

  function ChangesRound(name: string): Option<nat> {
    ChangesRoundFrom(name, 0)
  }

  /** A round is found exactly when the pattern matches somewhere, and it is the number at
      the leftmost match. */
  lemma {:induction false} ChangesRoundFromSpec(name: string, k: nat)
    requires k <= |name|
    ensures ChangesRoundFrom(name, k).None? <==> forall j | k <= j <= |name| :: !MatchAt(name, j)
    ensures ChangesRoundFrom(name, k).Some? ==>
              exists j | k <= j <= |name| :: MatchAt(name, j) && ChangesRoundFrom(name, k).value == RunValue(name, j + 9)
                                           && forall i | k <= i < j :: !MatchAt(name, i)
    decreases |name| - k
  {
    if MatchAt(name, k) {
      assert ChangesRoundFrom(name, k).value == RunValue(name, k + 9);
    } else if k < |name| {
      ChangesRoundFromSpec(name, k + 1);
      var r := ChangesRoundFrom(name, k + 1);
      assert ChangesRoundFrom(name, k) == r;
      if r.Some? {
        var j :| k + 1 <= j <= |name| && MatchAt(name, j) && r.value == RunValue(name, j + 9)
                 && forall i | k + 1 <= i < j :: !MatchAt(name, i);
        assert forall i | k <= i < j :: !MatchAt(name, i);
      }
    }
  }

  /** The changes file of round `n` is read back as round `n`. */
  lemma ChangesRoundOf(n: nat)
    ensures ChangesRound("changes_r" + NatToString(n) + ".json") == Some(n)
  {
    var d := NatToString(n);
    var name := "changes_r" + d + ".json";
    assert name[..9] == "changes_r";
    assert name[9..9 + |d|] == d;
    DigitRunExact(name, 9, |d|);
    assert name[9 + |d|..9 + |d| + 5] == ".json";
    assert MatchAt(name, 0);
  }

  // ---------------------------------------------------------------- per-round lists

  /** The per-round lists of one model: one list of counts per round and bucket. */
  datatype Series = Series(readme: seq<seq<int>>, submission: seq<seq<int>>, others: seq<seq<int>>)

  function EmptySeries(): (s: Series)
    ensures |s.readme| == |s.submission| == |s.others| == Rounds
  {
    var e := seq(Rounds, _ => []);
    Series(e, e, e)
  }

  function Lists(s: Series, b: Bucket): seq<seq<int>> {
    match b
    case Readme => s.readme
    case Submission => s.submission
    case Others => s.others
  }

  predicate Shaped(s: Series) {
    |s.readme| == Rounds && |s.submission| == Rounds && |s.others| == Rounds
  }

  /** One changes file of `build_data`: the round read from its name, its recorded diff text
      (`None` when absent) and that text as the parser reads it. Files without a round,
      outside rounds 1 to 15 or without a diff leave the lists alone; otherwise each bucket's
      count is appended to the list of that round. */
  function AddChangesFile(s: Series, name: string, diff: Option<string>, patch: Option<seq<DiffFile>>,
                          arena: string, submissions: map<string, string>): (r: Result<Series>)
    requires Shaped(s)
    ensures r.Ok? ==> Shaped(r.value)
    ensures r.Fail? <==> Accepted(name, diff, ChangesRound(name)) && patch.Some? && arena !in submissions
  {
    match ChangesRound(name)
    case None => Ok(s)
    case Some(round) =>
      if round < 1 || round > Rounds then Ok(s)
      else if diff.None? || diff.value == "" then Ok(s)
      else if patch.Some? && arena !in submissions then Fail(KeyError(arena))
      else
        var c := if patch.None? then Changes(0, 0, 0)
                 else ChangesFrom(Changes(0, 0, 0), patch.value, submissions[arena]);
        Ok(Series(s.readme[round - 1 := s.readme[round - 1] + [c.readme]],
                  s.submission[round - 1 := s.submission[round - 1] + [c.submission]],
                  s.others[round - 1 := s.others[round - 1] + [c.others]]))
  }

  /** The count a read changes file contributes to bucket `b`: the changed lines of the
      parsed diff's files in that bucket, and 0 when the diff text does not parse. */
  function FileCount(patch: Option<seq<DiffFile>>, arena: string, submissions: map<string, string>, b: Bucket): nat {
    if patch.Some? && arena in submissions then InBucket(patch.value, submissions[arena], b) else 0
  }

  /** A changes file that is read appends to every bucket's list of its round exactly the
      changed lines of that bucket, and changes no other list. */
  lemma AddChangesFileSpec(s: Series, name: string, diff: Option<string>, patch: Option<seq<DiffFile>>,
                           arena: string, submissions: map<string, string>, b: Bucket, k: nat)
    requires Shaped(s) && k < Rounds
    requires AddChangesFile(s, name, diff, patch, arena, submissions).Ok?
    ensures var s' := AddChangesFile(s, name, diff, patch, arena, submissions).value;
      Shaped(s')
      && (if ChangesRound(name) == Some(k + 1) && diff.Some? && diff.value != ""
          then Lists(s', b)[k] == Lists(s, b)[k] + [FileCount(patch, arena, submissions, b)]
          else Lists(s', b)[k] == Lists(s, b)[k])
  {
    if patch.Some? && arena in submissions {
      ChangesFromBuckets(Changes(0, 0, 0), patch.value, submissions[arena], b);
    }
  }

  /** The file is read: its name gives a round from 1 to 15 and it records a non-empty diff. */
  predicate Accepted(name: string, diff: Option<string>, round: Option<nat>) {
    round.Some? && 1 <= round.value <= Rounds && diff.Some? && diff.value != ""
  }

  /** A changes file of one player: its name, its diff text and that text as parsed. */
  datatype ChangesFile = ChangesFile(name: string, diff: Option<string>, patch: Option<seq<DiffFile>>)

  /** The lists after the changes files `files`, stopping at the first error. */
  function AddAll(s: Series, files: seq<ChangesFile>, arena: string, submissions: map<string, string>): (r: Result<Series>)
    requires Shaped(s)
    ensures r.Ok? ==> Shaped(r.value)
    decreases |files|
  {
    if files == [] then Ok(s)
    else
      match AddChangesFile(s, files[0].name, files[0].diff, files[0].patch, arena, submissions)
      case Fail(e) => Fail(e)
      case Ok(s') => AddAll(s', files[1..], arena, submissions)
  }

  /** The loop of `build_data` over one player's changes files. */
  method CollectChanges(s: Series, files: seq<ChangesFile>, arena: string, submissions: map<string, string>)
    returns (r: Result<Series>)
    requires Shaped(s)
    ensures r == AddAll(s, files, arena, submissions)
  {
    var cur := s;
    for i := 0 to |files|
      invariant Shaped(cur)
      invariant AddAll(cur, files[i..], arena, submissions) == AddAll(s, files, arena, submissions)
    {
      assert files[i..][1..] == files[i + 1..];
      var f := files[i];
      var step := AddChangesFile(cur, f.name, f.diff, f.patch, arena, submissions);
      if step.Fail? {
        return step;
      }
      cur := step.value;
    }
    assert files[|files|..] == [];
    return Ok(cur);
  }

  /** The files read as round `k + 1`. */
  function AcceptedIn(files: seq<ChangesFile>, k: nat): nat {
    if files == [] then 0
    else (if Accepted(files[0].name, files[0].diff, ChangesRound(files[0].name))
             && ChangesRound(files[0].name) == Some(k + 1) then 1 else 0)
         + AcceptedIn(files[1..], k)
  }

  /** What one changes file appends to bucket `b`'s list of round `k + 1`: its count when
      it is read as that round, nothing otherwise. */
  function FileCounts(f: ChangesFile, k: nat, arena: string, submissions: map<string, string>, b: Bucket): seq<int> {
    if Accepted(f.name, f.diff, ChangesRound(f.name)) && ChangesRound(f.name) == Some(k + 1)
    then [FileCount(f.patch, arena, submissions, b)] else []
  }

  /** The counts the files read as round `k + 1` contribute to bucket `b`, in file order. */
  function RoundCounts(files: seq<ChangesFile>, k: nat, arena: string, submissions: map<string, string>,
                       b: Bucket): (r: seq<int>)
    ensures |r| == AcceptedIn(files, k)
    ensures forall i | 0 <= i < |r| :: r[i] >= 0
  {
    if files == [] then []
    else FileCounts(files[0], k, arena, submissions, b) + RoundCounts(files[1..], k, arena, submissions, b)
  }

  /** Every list of a round gains exactly one count per accepted file of that round, the
      bucket's changed lines of that file, in file order after the counts it had. */
  lemma {:induction false} AddAllCounts(s: Series, files: seq<ChangesFile>, arena: string,
                                        submissions: map<string, string>, b: Bucket, k: nat)
    requires Shaped(s) && k < Rounds
    requires AddAll(s, files, arena, submissions).Ok?
    ensures var l := Lists(AddAll(s, files, arena, submissions).value, b)[k];
      l == Lists(s, b)[k] + RoundCounts(files, k, arena, submissions, b)
      && |l| == |Lists(s, b)[k]| + AcceptedIn(files, k)
    decreases |files|
  {
    if files == [] {
      assert Lists(s, b)[k] + [] == Lists(s, b)[k];
    } else {
      var f := files[0];
      var s' := AddChangesFile(s, f.name, f.diff, f.patch, arena, submissions).value;
      AddChangesFileSpec(s, f.name, f.diff, f.patch, arena, submissions, b, k);
      CountsStep(Lists(s, b)[k], Lists(s', b)[k], files, arena, submissions, b, k);
      AddAllCounts(s', files[1..], arena, submissions, b, k);
    }
  }

  /** One file's step: what it appends and what the remaining files append make up what
      all the files append. */
  lemma CountsStep(before: seq<int>, after: seq<int>, files: seq<ChangesFile>, arena: string,
                   submissions: map<string, string>, b: Bucket, k: nat)
    requires files != []
    requires after == before + FileCounts(files[0], k, arena, submissions, b)
    ensures after + RoundCounts(files[1..], k, arena, submissions, b)
            == before + RoundCounts(files, k, arena, submissions, b)
  {
    AppendAssocInt(before, FileCounts(files[0], k, arena, submissions, b),
                   RoundCounts(files[1..], k, arena, submissions, b));
  }

  lemma AppendAssocInt(a: seq<int>, b: seq<int>, c: seq<int>)
    ensures (a + b) + c == a + (b + c)
  {
  }

  /** The README and submission averages of one model: 15 values each. */
  method ChangeAverages(s: Series, b: Bucket) returns (avgs: seq<real>)
    ensures |avgs| == Rounds
    ensures forall k | 0 <= k < Rounds :: avgs[k] == Trimmed(RoundList(Lists(s, b), k), 95)
  {
    avgs := RoundAverages(Lists(s, b), Rounds, 95);
  }
}
