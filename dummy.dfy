/** The Dummy arena of `codeclash/arenas/dummy/dummy.py` and the Dummy game of
    `codeclash/games/dummy/dummy_game.py`, which share one engine and one results format:
    the engine command, the parser that reads "Bot_<d>_main: <n> rounds won" lines after
    the last `FINAL_RESULTS` marker of the round log, the winner chosen from those scores,
    and the arena's submission check. */
module Dummy {
  import opened Wrappers
  import opened Text
  import opened OrderedDict
  import opened GameStats
  import opened Environment

  const Marker: string := "FINAL_RESULTS"
  const LogName: string := "result.log"
  const Submission: string := "main.py"

  // ---------------------------------------------------------------- execute_round

  /** The path the engine loads an agent's bot from. */
  function SubmissionPath(agent: string): string {
    "/" + agent + "/" + Submission
  }

  function SubmissionPaths(agents: seq<string>): (r: seq<string>)
    ensures |r| == |agents| && forall i | 0 <= i < |agents| :: r[i] == SubmissionPath(agents[i])
  {
    if agents == [] then [] else SubmissionPaths(agents[..|agents| - 1]) + [SubmissionPath(agents[|agents| - 1])]
  }

  /** The engine command: its fixed words, the joined submission paths, the number of
      simulations and the redirection into the round's log, each separated by one space. */
  function EngineCommand(agents: seq<string>, sims: string, logEnv: string): string {
    Join(["python", "engine.py", Join(SubmissionPaths(agents), " "), "-r", sims, ">", logEnv + "/" + LogName + ";"], " ")
  }

  /** `execute_round` (the same in the arena and the game): a config without
      `sims_per_round` is a KeyError before anything runs; otherwise the engine command is
      issued and its result passes through `assert_zero_exit_code`. */
  method ExecuteRound(agents: seq<string>, sims: Option<string>, logEnv: string, result: CommandResult, hasLogger: bool)
    returns (cmds: seq<string>, r: Result<()>)
    ensures sims.None? ==> cmds == [] && r == Fail(KeyError("sims_per_round"))
    ensures sims.Some? ==> cmds == [EngineCommand(agents, sims.value, logEnv)]
    ensures sims.Some? ==> (r.Ok? <==> Succeeded(result))
    ensures sims.Some? && r.Fail? ==> r.error == RuntimeError(FailureMessage(result))
  {
    if sims.None? {
      return [], Fail(KeyError("sims_per_round"));
    }
    cmds := [EngineCommand(agents, sims.value, logEnv)];
    var (checked, _) := AssertZeroExitCode(result, hasLogger);
    r := if checked.Ok? then Ok(()) else Fail(checked.error);
  }

  /** For agents whose names hold no whitespace, the shell reads the command as the
      program, the engine script, one path per agent in agent order, the `-r` option and
      the redirection. */
  lemma EngineCommandWords(agents: seq<string>, sims: string, logEnv: string)
    requires agents != []
    requires forall a | a in agents :: forall j | 0 <= j < |a| :: !IsSpace(a[j])
    requires IsWord(sims) && forall j | 0 <= j < |logEnv| :: !IsSpace(logEnv[j])
    ensures Words(EngineCommand(agents, sims, logEnv)) ==
      ["python", "engine.py"] + SubmissionPaths(agents) + ["-r", sims, ">", logEnv + "/" + LogName + ";"]
  {
    var paths := SubmissionPaths(agents);
    var tail := ["-r", sims, ">", logEnv + "/" + LogName + ";"];
    EngineCommandJoin(agents, sims, logEnv);
    PathsAreWords(agents);
    var head := ["python", "engine.py"];
    FixedWords(sims, logEnv);
    AllWords(head, paths);
    AllWords(head + paths, tail);
    JoinWords(head + paths + tail);
  }

  /** With at least one agent, the command is the plain join of all its words. */
  lemma EngineCommandJoin(agents: seq<string>, sims: string, logEnv: string)
    requires agents != []
    ensures EngineCommand(agents, sims, logEnv) ==
      Join(["python", "engine.py"] + SubmissionPaths(agents) + ["-r", sims, ">", logEnv + "/" + LogName + ";"], " ")
  {
    var paths := SubmissionPaths(agents);
    var head := ["python", "engine.py"];
    var tail := ["-r", sims, ">", logEnv + "/" + LogName + ";"];
    var j := Join(paths, " ");
    assert ["python", "engine.py", j, "-r", sims, ">", logEnv + "/" + LogName + ";"] == head + [j] + tail;
    JoinAppend(head + [j], tail, " ");
    JoinAppend(head, [j], " ");
    JoinAppend(head + paths, tail, " ");
    JoinAppend(head, paths, " ");
  }

  lemma FixedWords(sims: string, logEnv: string)
    requires IsWord(sims) && forall j | 0 <= j < |logEnv| :: !IsSpace(logEnv[j])
    ensures forall w | w in ["python", "engine.py"] :: IsWord(w)
    ensures forall w | w in ["-r", sims, ">", logEnv + "/" + LogName + ";"] :: IsWord(w)
  {
    VisibleWord("python");
    VisibleWord("engine.py");
    VisibleWord("-r");
    VisibleWord(">");
    TargetIsWord(logEnv);
  }

  lemma AllWords(xs: seq<string>, ys: seq<string>)
    requires (forall w | w in xs :: IsWord(w)) && (forall w | w in ys :: IsWord(w))
    ensures forall w | w in xs + ys :: IsWord(w)
  {
  }

  lemma PathsAreWords(agents: seq<string>)
    requires forall a | a in agents :: forall j | 0 <= j < |a| :: !IsSpace(a[j])
    ensures forall w | w in SubmissionPaths(agents) :: IsWord(w)
  {
    var paths := SubmissionPaths(agents);
    forall i | 0 <= i < |paths| ensures IsWord(paths[i]) {
      assert agents[i] in agents;
      PathIsWord(agents[i]);
    }
  }

  lemma PathIsWord(agent: string)
    requires forall j | 0 <= j < |agent| :: !IsSpace(agent[j])
    ensures IsWord(SubmissionPath(agent))
  {
    var p := SubmissionPath(agent);
    forall j | 0 <= j < |p| ensures !IsSpace(p[j]) {
      if 1 <= j < 1 + |agent| {
        assert p[j] == agent[j - 1];
      } else if j == 0 {
        assert p[j] == '/';
      } else {
        assert p[j] == ("/" + Submission)[j - 1 - |agent|];
      }
    }
  }

  lemma TargetIsWord(logEnv: string)
    requires forall j | 0 <= j < |logEnv| :: !IsSpace(logEnv[j])
    ensures IsWord(logEnv + "/" + LogName + ";")
  {
    var t := logEnv + "/" + LogName + ";";
    var suffix := "/" + LogName + ";";
    assert t == logEnv + suffix;
    forall j | 0 <= j < |t| ensures !IsSpace(t[j]) {
      if j < |logEnv| {
        assert t[j] == logEnv[j];
      } else {
        assert t[j] == suffix[j - |logEnv|];
      }
    }
  }

  // ---------------------------------------------------------------- the results line

  /** The pattern `Bot\_(\d)\_main:\s(\d+)\srounds\swon` matched at index `i`: the bot digit
      and the number of rounds won. `\d+` takes the whole run of digits, since the
      whitespace after it can never be a digit. */
  function ReportAt(line: string, i: nat): Option<(nat, nat)>
    requires i <= |line|
  {
    if HasAt(line, "Bot_", i) && i + 11 < |line| && IsDigit(line[i + 4]) && HasAt(line, "_main:", i + 5) && IsSpace(line[i + 11]) then
      var n := DigitRun(line, i + 12);
      var j := i + 12 + n;
      if n > 0 && j + 7 < |line| && IsSpace(line[j]) && HasAt(line, "rounds", j + 1) && IsSpace(line[j + 7]) && HasAt(line, "won", j + 8) then
        Some((line[i + 4] as int - '0' as int, RunValue(line, i + 12)))
      else None
    else None
  }

  /** `re.search` from index `i`: the match at the leftmost index that has one. */
  function SearchFrom(line: string, i: nat): Option<(nat, nat)>
    requires i <= |line|
    decreases |line| - i
  {
    match ReportAt(line, i)
    case Some(x) => Some(x)
    case None => if i == |line| then None else SearchFrom(line, i + 1)
  }

  function Report(line: string): Option<(nat, nat)> {
    SearchFrom(line, 0)
  }

  /** The search finds nothing exactly when no index matches. */
  lemma {:induction false} SearchNone(line: string, i: nat)
    requires i <= |line|
    ensures SearchFrom(line, i).None? <==> forall k | i <= k <= |line| :: ReportAt(line, k).None?
    decreases |line| - i
  {
    if ReportAt(line, i).None? && i < |line| {
      SearchNone(line, i + 1);
    }
  }

  /** What the search finds is the match at the leftmost matching index. */
  lemma {:induction false} SearchLeftmost(line: string, i: nat)
    requires i <= |line| && SearchFrom(line, i).Some?
    ensures exists k | i <= k <= |line| :: ReportAt(line, k) == SearchFrom(line, i) && forall j | i <= j < k :: ReportAt(line, j).None?
    decreases |line| - i
  {
    if ReportAt(line, i).None? {
      SearchLeftmost(line, i + 1);
      var k :| i + 1 <= k <= |line| && ReportAt(line, k) == SearchFrom(line, i + 1) && forall j | i + 1 <= j < k :: ReportAt(line, j).None?;
      assert forall j | i <= j < k :: ReportAt(line, j).None?;
    } else {
      assert ReportAt(line, i) == SearchFrom(line, i);
    }
  }

  /** The line the engine prints for bot `d`. */
  function ReportLine(d: nat, n: nat): string
    requires d < 10
  {
    "Bot_" + [('0' as int + d) as char] + "_main:" + " " + NatToString(n) + " " + "rounds" + " " + "won"
  }

  /** A line that starts with the engine's report for bot `d` reads back as `d` and `n`. */
  lemma ReportRoundTrip(d: nat, n: nat, rest: string)
    requires d < 10
    ensures Report(ReportLine(d, n) + rest) == Some((d, n))
  {
    var line := ReportLine(d, n) + rest;
    var digits := NatToString(n);
    var c := ('0' as int + d) as char;
    var tail := " rounds won" + rest;
    assert line == "Bot_" + [c] + "_main:" + " " + digits + tail;
    var m := |digits|;
    assert HasAt(line, "Bot_", 0) by { assert line[0..4] == "Bot_"; }
    assert line[4] == c;
    assert HasAt(line, "_main:", 5) by { assert line[5..11] == "_main:"; }
    assert line[11] == ' ';
    assert line[12..12 + m] == digits;
    assert line[12 + m..] == tail;
    DigitRunExact(line, 12, m) by {
      forall t | 12 <= t < 12 + m ensures IsDigit(line[t]) { assert line[t] == digits[t - 12]; }
      assert line[12 + m] == tail[0];
    }
    assert HasAt(line, "rounds", 12 + m + 1) by { assert line[13 + m..19 + m] == tail[1..7]; }
    assert line[12 + m + 7] == tail[7];
    assert HasAt(line, "won", 12 + m + 8) by { assert line[20 + m..23 + m] == tail[8..11]; }
    assert ReportAt(line, 0) == Some((d, n));
  }

  // ---------------------------------------------------------------- get_results

  /** The lines after the last marker of the round log. */
  function ResultLines(roundLog: string): seq<string> {
    SplitLines(AfterLast(roundLog, Marker))
  }

  /** The scores after the given lines: a report for bot `d` stores its count under the
      name of `agents[d - 1]` (so bot 0 names the last agent, as Python's negative index
      does), replacing any earlier count; a bot beyond the agents is an IndexError. */
  function Scores(agents: seq<string>, lines: seq<string>): Result<seq<(string, int)>> {
    if lines == [] then Ok([])
    else
      match Scores(agents, lines[..|lines| - 1])
      case Fail(e) => Fail(e)
      case Ok(prev) =>
        match Report(lines[|lines| - 1])
        case None => Ok(prev)
        case Some((d, n)) =>
          match AgentAt(agents, d - 1)
          case Fail(e) => Fail(e)
          case Ok(name) => Ok(Put(prev, name, n))
  }

  /** The loop over the lines that fills `scores`. */
  method ParseScores(agents: seq<string>, lines: seq<string>) returns (r: Result<seq<(string, int)>>)
    ensures r == Scores(agents, lines)
  {
    var scores: seq<(string, int)> := [];
    for i := 0 to |lines|
      invariant Scores(agents, lines[..i]) == Ok(scores)
    {
      assert lines[..i + 1][..i] == lines[..i];
      var report := Report(lines[i]);
      if report.Some? {
        var (d, n) := report.value;
        var name := AgentAt(agents, d - 1);
        if name.Fail? {
          assert Scores(agents, lines[..i + 1]) == Fail(IndexError);
          PrefixFails(agents, lines, i + 1);
          return Fail(name.error);
        }
        scores := Put(scores, name.value, n);
      }
    }
    assert lines[..|lines|] == lines;
    r := Ok(scores);
  }

  /** Once the scores fail they stay failed. */
  lemma {:induction false} PrefixFails(agents: seq<string>, lines: seq<string>, i: nat)
    requires i <= |lines| && Scores(agents, lines[..i]).Fail?
    ensures Scores(agents, lines) == Scores(agents, lines[..i])
    decreases |lines| - i
  {
    if i < |lines| {
      assert lines[..i + 1][..i] == lines[..i];
      PrefixFails(agents, lines, i + 1);
    } else {
      assert lines[..i] == lines;
    }
  }

  /** No agent is scored twice. */
  lemma {:induction false} ScoresUnique(agents: seq<string>, lines: seq<string>)
    requires Scores(agents, lines).Ok?
    ensures UniqueKeys(Scores(agents, lines).value)
  {
    if lines != [] {
      var init := lines[..|lines| - 1];
      ScoresUnique(agents, init);
      var prev := Scores(agents, init).value;
      match Report(lines[|lines| - 1])
      case None =>
      case Some((d, n)) =>
        PutUnique(prev, AgentAt(agents, d - 1).value, n);
    }
  }

  /** Only agents are scored. */
  lemma {:induction false} ScoresNameAgents(agents: seq<string>, lines: seq<string>)
    requires Scores(agents, lines).Ok?
    ensures forall i | 0 <= i < |Scores(agents, lines).value| :: Scores(agents, lines).value[i].0 in agents
  {
    if lines != [] {
      var init := lines[..|lines| - 1];
      ScoresNameAgents(agents, init);
      var prev := Scores(agents, init).value;
      match Report(lines[|lines| - 1])
      case None =>
      case Some((d, n)) =>
        var name := AgentAt(agents, d - 1).value;
        assert name in agents;
        PutStaysIn(prev, name, n, agents);
    }
  }

  lemma PutStaysIn(prev: seq<(string, int)>, name: string, n: int, agents: seq<string>)
    requires name in agents && forall i | 0 <= i < |prev| :: prev[i].0 in agents
    ensures forall i | 0 <= i < |Put(prev, name, n)| :: Put(prev, name, n)[i].0 in agents
  {
  }

  /** A report for bot `d` sets that agent's score, whatever an earlier line said. */
  lemma LaterReportWins(agents: seq<string>, lines: seq<string>, line: string, d: nat, n: nat)
    requires Scores(agents, lines).Ok? && Report(line) == Some((d, n)) && 1 <= d <= |agents|
    ensures Scores(agents, lines + [line]).Ok?
    ensures Get(Scores(agents, lines + [line]).value, agents[d - 1]) == Some(n as int)
  {
    var all := lines + [line];
    assert all[..|all| - 1] == lines && all[|all| - 1] == line;
    var prev := Scores(agents, lines).value;
    assert AgentAt(agents, d - 1) == Ok(agents[d - 1]);
    assert Scores(agents, all) == Ok(Put(prev, agents[d - 1], n));
    PutGet(prev, agents[d - 1], n, agents[d - 1]);
  }

  /** A report for a bot beyond the agents is an IndexError. */
  lemma UnknownBotFails(agents: seq<string>, lines: seq<string>, line: string, d: nat, n: nat)
    requires Scores(agents, lines).Ok? && Report(line) == Some((d, n)) && d > |agents|
    ensures Scores(agents, lines + [line]) == Fail(IndexError)
  {
    assert (lines + [line])[..|lines|] == lines;
  }

  /** Lines without a report leave the scores as they are. */
  lemma SilentLine(agents: seq<string>, lines: seq<string>, line: string)
    requires Report(line).None?
    ensures Scores(agents, lines + [line]) == Scores(agents, lines)
  {
    assert (lines + [line])[..|lines|] == lines;
  }

  /** Only the text after the last marker is read: a log made of anything, the marker and
      a marker-free tail reads the tail's lines. */
  lemma TailOnly(before: string, tail: string)
    requires !Contains(tail, Marker)
    ensures ResultLines(before + Marker + tail) == SplitLines(tail)
  {
    var s := before + Marker + tail;
    var b := |before|;
    assert HasAt(s, Marker, b) by { assert s[b..b + |Marker|] == Marker; }
    forall j | b < j ensures !HasAt(s, Marker, j) {
      if j < b + |Marker| {
        assert s[j] == Marker[j - b] && Marker[j - b] != Marker[0];
      } else if HasAt(s, Marker, j) {
        var k := j - b - |Marker|;
        assert s[j..j + |Marker|] == tail[k..k + |Marker|];
        assert HasAt(tail, Marker, k);
        ContainsIff(tail, Marker);
      }
    }
    assert FindLast(s, Marker) == Some(b);
    assert s[b + |Marker|..] == tail;
  }

  // ---------------------------------------------------------------- the winner

  /** Index of the first entry with the largest score among the first `n`, as `max` with a
      key function picks it. */
  function FirstMax(es: seq<(string, int)>, n: nat): (r: nat)
    requires 1 <= n <= |es|
    ensures r < n
  {
    if n == 1 then 0
    else
      var b := FirstMax(es, n - 1);
      if es[n - 1].1 > es[b].1 then n - 1 else b
  }

  /** No entry scores higher, and every entry before it scores lower. */
  lemma {:induction false} FirstMaxSpec(es: seq<(string, int)>, n: nat)
    requires 1 <= n <= |es|
    ensures forall j | 0 <= j < n :: es[j].1 <= es[FirstMax(es, n)].1
    ensures forall j | 0 <= j < FirstMax(es, n) :: es[j].1 < es[FirstMax(es, n)].1
  {
    if n > 1 {
      FirstMaxSpec(es, n - 1);
    }
  }

  /** `max(scores, key=scores.get)` when there are scores, "unknown" otherwise. */
  function Winner(scores: seq<(string, int)>): string {
    if scores == [] then "unknown" else scores[FirstMax(scores, |scores|)].0
  }

  /** The winner is a scored player whose score no one beats and who comes before every
      other player with the same score: there is never a tie. */
  lemma WinnerSpec(scores: seq<(string, int)>)
    requires scores != []
    ensures exists i | 0 <= i < |scores| ::
      && scores[i].0 == Winner(scores)
      && (forall j | 0 <= j < |scores| :: scores[j].1 <= scores[i].1)
      && (forall j | 0 <= j < i :: scores[j].1 < scores[i].1)
  {
    FirstMaxSpec(scores, |scores|);
    var i := FirstMax(scores, |scores|);
    assert scores[i].0 == Winner(scores);
  }

  // ---------------------------------------------------------------- the arena's get_results

  /** The record's player entries after the scores are written: every scored player gets
      the score, the others keep theirs. */
  function Scored(before: map<string, Option<int>>, scores: seq<(string, int)>): map<string, Option<int>> {
    map p | p in before :: if Get(scores, p).Some? then Some(Get(scores, p).value) else before[p]
  }

  /** `get_results` of the arena: parse the log, then write the winner, the scores and each
      scored player's score into the record. A report for a bot beyond the agents stops
      the parse with an IndexError, before the record is touched. */
  method GetResults(agents: seq<string>, roundLog: string, stats: RoundStats) returns (r: Result<()>)
    requires forall a | a in agents :: a in stats.playerScores
    modifies stats
    ensures var sc := Scores(agents, ResultLines(roundLog));
      && (sc.Fail? ==> r == Fail(sc.error) && unchanged(stats))
      && (sc.Ok? ==>
            && r.Ok?
            && stats.winner == Winner(sc.value)
            && stats.scores == ToMap(sc.value)
            && stats.playerScores == Scored(old(stats.playerScores), sc.value))
  {
    var parsed := ParseScores(agents, ResultLines(roundLog));
    if parsed.Fail? {
      return Fail(parsed.error);
    }
    var scores := parsed.value;
    ScoresUnique(agents, ResultLines(roundLog));
    ScoresNameAgents(agents, ResultLines(roundLog));
    stats.winner := Winner(scores);
    stats.scores := ToMap(scores);
    SetPlayerScores(stats, scores);
    r := Ok(());
  }

  /** The loop over the scores that writes each player's entry. */
  method SetPlayerScores(stats: RoundStats, scores: seq<(string, int)>)
    requires UniqueKeys(scores) && forall i | 0 <= i < |scores| :: scores[i].0 in stats.playerScores
    modifies stats
    ensures stats.winner == old(stats.winner) && stats.scores == old(stats.scores)
    ensures stats.playerScores == Scored(old(stats.playerScores), scores)
  {
    ghost var before := stats.playerScores;
    for i := 0 to |scores|
      invariant stats.winner == old(stats.winner) && stats.scores == old(stats.scores)
      invariant stats.playerScores == Scored(before, scores[..i])
    {
      ScoredStep(before, scores, i);
      stats.playerScores := stats.playerScores[scores[i].0 := Some(scores[i].1)];
    }
    assert scores[..|scores|] == scores;
  }

  lemma ScoredStep(before: map<string, Option<int>>, scores: seq<(string, int)>, i: nat)
    requires UniqueKeys(scores) && i < |scores| && scores[i].0 in before
    ensures Scored(before, scores[..i + 1]) == Scored(before, scores[..i])[scores[i].0 := Some(scores[i].1)]
  {
    var k := scores[i].0;
    assert scores[..i + 1] == scores[..i] + [scores[i]];
    forall p | p in before ensures Get(scores[..i + 1], p) == if p == k then Some(scores[i].1) else Get(scores[..i], p) {
      FindAppend(scores[..i], scores[i], p);
      if p == k {
        FindSpec(scores[..i], k);
        assert forall j | 0 <= j < i :: scores[..i][j].0 != k;
        assert k !in KeysOf(scores[..i]);
      }
    }
  }

  // ---------------------------------------------------------------- the game's get_results

  /** The record the game returns. */
  datatype GameRound = GameRound(winner: string, scores: map<string, int>, details: map<string, bool>)

  /** `get_results` of the game: parse the log and return the winner, the scores and the
      details `{"dummy": True}`. */
  method GameResults(agents: seq<string>, roundLog: string) returns (r: Result<GameRound>)
    ensures var sc := Scores(agents, ResultLines(roundLog));
      && (sc.Fail? ==> r == Fail(sc.error))
      && (sc.Ok? ==> r == Ok(GameRound(Winner(sc.value), ToMap(sc.value), map["dummy" := true])))
  {
    var parsed := ParseScores(agents, ResultLines(roundLog));
    if parsed.Fail? {
      return Fail(parsed.error);
    }
    r := Ok(GameRound(Winner(parsed.value), ToMap(parsed.value), map["dummy" := true]));
  }

  /** A log with no report after its last marker has no scores and no winner. */
  lemma {:induction false} NoReportsUnknown(agents: seq<string>, lines: seq<string>)
    requires forall i | 0 <= i < |lines| :: Report(lines[i]).None?
    ensures Scores(agents, lines) == Ok([])
    ensures Winner(Scores(agents, lines).value) == "unknown"
  {
    if lines != [] {
      NoReportsUnknown(agents, lines[..|lines| - 1]);
    }
  }

  /** The recorded score of each agent is the last count reported for it. */
  lemma ScoreOfAgent(agents: seq<string>, lines: seq<string>, k: string)
    requires Scores(agents, lines).Ok?
    ensures var sc := Scores(agents, lines).value;
      k in ToMap(sc) <==> Get(sc, k).Some?
    ensures var sc := Scores(agents, lines).value;
      k in ToMap(sc) ==> ToMap(sc)[k] == Get(sc, k).value
  {
    ScoresUnique(agents, lines);
    ToMapGet(Scores(agents, lines).value, k);
  }

  // ---------------------------------------------------------------- validate_code

  const ExistsCheck: string := "test -f " + Submission + " && echo 'exists'"
  const ShowFile: string := "cat " + Submission
  const CompileCheck: string := "python -m py_compile " + Submission

  /** `validate_code` of the arena, over the outputs of its three commands: the commands
      issued, in order, and the verdict. The first check that fails decides: a missing
      file, a blank file, then a syntax error with the compiler's output. */
  function ValidateCode(existsOutput: string, content: string, compileCode: int, compileOutput: string)
    : (r: (seq<string>, (bool, Option<string>)))
    ensures r.1.0 <==> Contains(existsOutput, "exists") && Strip(content) != "" && compileCode == 0
    ensures r.1.0 <==> r.1.1.None?
    ensures !Contains(existsOutput, "exists") ==> r.0 == [ExistsCheck]
    ensures Contains(existsOutput, "exists") && Strip(content) == "" ==> r.0 == [ExistsCheck, ShowFile]
    ensures Contains(existsOutput, "exists") && Strip(content) != "" ==> r.0 == [ExistsCheck, ShowFile, CompileCheck]
  {
    if !Contains(existsOutput, "exists") then
      ([ExistsCheck], (false, Some("Submission file '" + Submission + "' not found")))
    else if Strip(content) == "" then
      ([ExistsCheck, ShowFile], (false, Some("Submission file '" + Submission + "' is empty")))
    else if compileCode != 0 then
      ([ExistsCheck, ShowFile, CompileCheck], (false, Some("Python syntax error in '" + Submission + "':\n" + compileOutput)))
    else ([ExistsCheck, ShowFile, CompileCheck], (true, None))
  }

  /** A syntax error's message ends with the compiler's output. */
  lemma SyntaxErrorShowsOutput(existsOutput: string, content: string, compileCode: int, compileOutput: string)
    requires Contains(existsOutput, "exists") && Strip(content) != "" && compileCode != 0
    ensures var msg := ValidateCode(existsOutput, content, compileCode, compileOutput).1.1.value;
      |compileOutput| <= |msg| && msg[|msg| - |compileOutput|..] == compileOutput
  {
    var head := "Python syntax error in '" + Submission + "':\n";
    assert ValidateCode(existsOutput, content, compileCode, compileOutput).1.1.value == head + compileOutput;
  }
}
