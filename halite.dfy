/** The Halite game of `codeclash/games/halite/halite.py`: its run command, the commands of
    the simulations of a round, and the majority vote over the "came in rank #1" lines at
    the end of each simulation log. */
module Halite {
  import opened Wrappers
  import opened Text
  import opened RunCommand
  import opened GameStats
  import TournamentData

  // ---------------------------------------------------------------- commands

  const HaliteProgram: string := "./environment/halite"

  /** The constructor: the program with its replay directory, then the config's `args`
      (Halite's `default_args` is empty, and is used when the config has no `args`). */
  method RunCommandRound(logEnv: string, args: Option<seq<(string, ArgValue)>>) returns (cmd: string)
    ensures var given := if args.None? then [] else args.value;
      var base := HaliteProgram + " --replaydirectory " + logEnv;
      && cmd == base + Pieces("--", given)
      && (Plain("--", given) ==> Words(cmd) == Words(base) + ArgWords("--", given))
  {
    var given := if args.None? then [] else args.value;
    var base := HaliteProgram + " --replaydirectory " + logEnv;
    cmd := BuildRunCommand(base, "--", given);
    if Plain("--", given) {
      CommandWords(base, "--", given);
    }
  }

  /** The bot each agent runs. */
  function BotCommand(agent: string): string {
    "python /" + agent + "/airesources/Python/RandomBot.py"
  }

  /** The command of simulation `idx`: every agent's bot as one shell-quoted argument, and
      the output redirected to that simulation's own log file. */
  function SimulationCommand(runCmd: string, agents: seq<string>, logEnv: string, idx: nat): string {
    LogPrefix(runCmd, agents, logEnv) + LogName(idx)
  }

  function LogPrefix(runCmd: string, agents: seq<string>, logEnv: string): string {
    var entries := seq(|agents|, i requires 0 <= i < |agents| => BotCommand(agents[i]));
    runCmd + " " + ShellJoin(entries) + " > " + logEnv + "/"
  }

  /** `sim_{idx}.log` */
  function LogName(idx: nat): string {
    "sim_" + NatToString(idx) + ".log"
  }

  /** Different simulations of a round write to different log files. */
  lemma SimulationLogsDistinct(runCmd: string, agents: seq<string>, logEnv: string, i: nat, j: nat)
    requires i != j
    ensures SimulationCommand(runCmd, agents, logEnv, i) != SimulationCommand(runCmd, agents, logEnv, j)
  {
    var p := LogPrefix(runCmd, agents, logEnv);
    if p + LogName(i) == p + LogName(j) {
      SamePrefix(p, LogName(i), LogName(j));
      SameAffixes("sim_", NatToString(i), NatToString(j), ".log");
    }
  }

  lemma SamePrefix(p: string, a: string, b: string)
    requires p + a == p + b
    ensures a == b
  {
    assert a == (p + a)[|p|..];
  }

  lemma SameAffixes(p: string, a: string, b: string, q: string)
    requires p + a + q == p + b + q
    ensures a == b
  {
    assert |a| == |b|;
    assert a == (p + a + q)[|p|..|p| + |a|];
    assert b == (p + b + q)[|p|..|p| + |b|];
  }

  // ---------------------------------------------------------------- the rank pattern

  /** `Player\s#(\d+),\s` at `i`: the player number and the index after the match. */
  function HeadAt(s: string, i: nat): (r: Option<(nat, nat)>)
    requires i <= |s|
    ensures r.Some? ==> i + 10 <= r.value.1 <= |s|
  {
    if !(HasAt(s, "Player", i) && i + 8 <= |s| && IsSpace(s[i + 6]) && s[i + 7] == '#') then None
    else
      var e := i + 8 + DigitRun(s, i + 8);
      if e > i + 8 && e + 2 <= |s| && s[e] == ',' && IsSpace(s[e + 1]) then Some((RunValue(s, i + 8), e + 2))
      else None
  }

  /** `,\scame\sin\srank\s#\d` at `j`. */
  predicate TailAt(s: string, j: int) {
    0 <= j && j + 17 <= |s| && s[j] == ',' && IsSpace(s[j + 1]) && HasAt(s, "came", j + 2)
    && IsSpace(s[j + 6]) && HasAt(s, "in", j + 7) && IsSpace(s[j + 9]) && HasAt(s, "rank", j + 10)
    && IsSpace(s[j + 14]) && s[j + 15] == '#' && IsDigit(s[j + 16])
  }

  /** `.` matches everything but a newline. */
  predicate NoNewline(s: string, p: int, k: int) {
    forall t | p <= t < k && 0 <= t < |s| :: s[t] != '\n'
  }

  /** Where the greedy `(.*)` that starts at `p` stops: the last tail position at most `k`
      that the group can reach. */
  function LastTail(s: string, p: nat, k: int): (r: Option<nat>)
    decreases if k < p then 0 else k - p + 1
    ensures r.Some? ==> p <= r.value <= k && r.value + 17 <= |s|
  {
    if k < p then None
    else if TailAt(s, k) && NoNewline(s, p, k) then Some(k)
    else LastTail(s, p, k - 1)
  }

  /** A tail the group can reach from `p`. */
  predicate Reachable(s: string, p: nat, j: int) {
    TailAt(s, j) && NoNewline(s, p, j)
  }

  /** The greedy group: the tail found is reachable from `p`. */
  lemma {:induction false} LastTailFound(s: string, p: nat, k: int)
    requires LastTail(s, p, k).Some?
    ensures Reachable(s, p, LastTail(s, p, k).value)
    decreases if k < p then 0 else k - p + 1
  {
    if !Reachable(s, p, k) {
      LastTailFound(s, p, k - 1);
    }
  }

  /** No reachable tail lies beyond the one found. */
  lemma {:induction false} LastTailLast(s: string, p: nat, k: int, j: int)
    requires LastTail(s, p, k).Some? && LastTail(s, p, k).value < j <= k
    ensures !Reachable(s, p, j)
    decreases if k < p then 0 else k - p + 1
  {
    if j < k {
      LastTailLast(s, p, k - 1, j);
    }
  }

  /** When nothing is found, no tail is reachable at all. */
  lemma {:induction false} LastTailNone(s: string, p: nat, k: int, j: int)
    requires LastTail(s, p, k).None? && p <= j <= k
    ensures !Reachable(s, p, j)
    decreases if k < p then 0 else k - p + 1
  {
    if j < k {
      LastTailNone(s, p, k - 1, j);
    }
  }

  /** `re.search(r"Player\s#(\d+),\s(.*),\scame\sin\srank\s#(\d+)", s)` from index `i` on:
      the player number and the rank of the leftmost match. */
  function RankMatchFrom(s: string, i: nat): (r: Option<(nat, nat)>)
    requires i <= |s|
    decreases |s| - i
  {
    var m := MatchAt(s, i);
    if m.Some? then m
    else if i == |s| then None
    else RankMatchFrom(s, i + 1)
  }

  /** A match that starts at `i`: the head there, then the greedy group up to the last
      tail, then the rank digits. */
  function MatchAt(s: string, i: nat): Option<(nat, nat)>
    requires i <= |s|
  {
    MatchAfterHead(s, HeadAt(s, i))
  }

  /** The match that a head found at some position completes, if any. */
  function MatchAfterHead(s: string, h: Option<(nat, nat)>): Option<(nat, nat)> {
    if h.Some? && LastTail(s, h.value.1, |s|).Some? then
      var j := LastTail(s, h.value.1, |s|).value;
      Some((h.value.0, RunValue(s, j + 16)))
    else None
  }

  function RankMatch(line: string): Option<(nat, nat)> {
    RankMatchFrom(line, 0)
  }

  /** The line the Halite engine writes for one player's final rank. */
  function RankLine(player: nat, name: string, rank: nat): string {
    var head := "Player #" + NatToString(player) + ", ";
    var tail := ", came in rank #" + NatToString(rank);
    head + name + tail
  }

  /** The pattern reads the player number and the rank back out of such a line, with or
      without its line break, whatever the bot's name, as long as the name stays on one
      line. */
  lemma RankLineMatches(player: nat, name: string, rank: nat, end: string)
    requires forall t | 0 <= t < |name| :: name[t] != '\n'
    requires end == "" || end == "\n"
    ensures RankMatch(RankLine(player, name, rank) + end) == Some((player, rank))
  {
    var a, b := NatToString(player), NatToString(rank);
    RankLineShape(player, name, rank, end);
    RankTextHead(a, name, b + end);
    RankTextGroup(a, name, b, end);
    RankTextRank(a, name, b, end);
    MatchAtStart(RankLine(player, name, rank) + end, player, rank, |a| + 10, |a| + 10 + |name|);
  }

  /** In a rank line with player digits `a`, the head ends after the player number ... */
  lemma RankTextHead(a: string, name: string, d: string)
    requires a != [] && AllDigits(a)
    ensures var s := "Player #" + a + ", " + name + (", came in rank #" + d);
      HeadAt(s, 0) == Some((DigitsValue(a), |a| + 10))
  {
    HeadOfRankLine(a, name, ", came in rank #" + d);
  }

  /** ... the group ends after the name ... */
  lemma RankTextGroup(a: string, name: string, b: string, end: string)
    requires b != [] && AllDigits(b)
    requires forall t | 0 <= t < |name| :: name[t] != '\n'
    requires end == "" || end == "\n"
    ensures var s := "Player #" + a + ", " + name + (", came in rank #" + (b + end));
      LastTail(s, |a| + 10, |s|) == Some(|a| + 10 + |name|)
  {
    GroupOfRankLine("Player #" + a + ", ", name, b, end);
  }

  /** ... and the rank digits `b` follow the tail. */
  lemma RankTextRank(a: string, name: string, b: string, end: string)
    requires AllDigits(b) && (end == "" || end == "\n")
    ensures var s := "Player #" + a + ", " + name + (", came in rank #" + (b + end));
      |a| + 10 + |name| + 16 <= |s| && RunValue(s, |a| + 10 + |name| + 16) == DigitsValue(b)
  {
    var x := "Player #" + a + ", " + name;
    assert |x| == |a| + 10 + |name|;
    assert end == [] || !IsDigit(end[0]);
    RankOfRankLine(x, b, end);
  }

  lemma RankLineShape(player: nat, name: string, rank: nat, end: string)
    ensures RankLine(player, name, rank) + end
      == "Player #" + NatToString(player) + ", " + name + (", came in rank #" + (NatToString(rank) + end))
  {
    var lit := ", came in rank #";
    var b := NatToString(rank);
    Assoc3("Player #" + NatToString(player) + ", " + name, lit + b, end);
    Assoc3(lit, b, end);
  }

  /** The greedy group takes exactly the name, and the rank digits follow its tail. */
  lemma GroupOfRankLine(head: string, name: string, b: string, end: string)
    requires forall t | 0 <= t < |name| :: name[t] != '\n'
    requires b != [] && AllDigits(b) && (end == "" || end == "\n")
    ensures var s := head + name + (", came in rank #" + (b + end));
      LastTail(s, |head|, |s|) == Some(|head + name|)
  {
    var tail := ", came in rank #" + (b + end);
    var s := head + name + tail;
    TailOfRankLine(head + name, b + end);
    NoLaterTail(head + name, b + end);
    NameOnOneLine(head, name, tail);
    LastTailIs(s, |head|, |s|, |head + name|);
  }

  /** A head at the start and a tail after it make the leftmost match. */
  lemma MatchAtStart(s: string, player: nat, rank: nat, p: nat, j: nat)
    requires HeadAt(s, 0) == Some((player, p)) && LastTail(s, p, |s|) == Some(j)
    requires j + 16 <= |s| && RunValue(s, j + 16) == rank
    ensures RankMatch(s) == Some((player, rank))
  {
    MatchAtHead(s, player, rank, p, j);
  }

  lemma MatchAtHead(s: string, player: nat, rank: nat, p: nat, j: nat)
    requires LastTail(s, p, |s|) == Some(j)
    requires j + 16 <= |s| && RunValue(s, j + 16) == rank
    ensures MatchAfterHead(s, Some((player, p))) == Some((player, rank))
  {
  }

  lemma NameOnOneLine(head: string, name: string, tail: string)
    requires forall t | 0 <= t < |name| :: name[t] != '\n'
    ensures NoNewline(head + name + tail, |head|, |head + name|)
  {
    var s := head + name + tail;
    forall t | |head| <= t < |head| + |name| ensures s[t] == name[t - |head|] {
      assert s[t] == (head + name)[t];
    }
  }

  /** The greedy group ends at a tail with nothing but its own line before it, when no
      tail follows. */
  lemma LastTailIs(s: string, p: nat, k: int, j: nat)
    requires p <= j <= k && TailAt(s, j) && NoNewline(s, p, j)
    requires forall i | j < i :: !TailAt(s, i)
    ensures LastTail(s, p, k) == Some(j)
    decreases k - j
  {
    if k > j {
      LastTailIs(s, p, k - 1, j);
    }
  }

  /** The head of a rank line: `Player #<digits>, ` matches at the start. */
  lemma HeadOfRankLine(a: string, name: string, tail: string)
    requires a != [] && AllDigits(a)
    ensures HeadAt("Player #" + a + ", " + name + tail, 0) == Some((DigitsValue(a), |a| + 10))
  {
    var s := "Player #" + a + ", " + name + tail;
    HeadMarks(a, name + tail);
    Assoc3("Player #" + a + ", ", name, tail);
    Assoc3("Player #" + a, ", ", name + tail);
    DigitsAt("Player #", a, ", " + (name + tail));
  }

  /** The fixed characters around the player number. */
  lemma HeadMarks(a: string, rest: string)
    ensures var s := "Player #" + a + (", " + rest);
      |s| >= |a| + 10 && s[..6] == "Player" && s[6] == ' ' && s[7] == '#' && s[8 + |a|] == ',' && s[9 + |a|] == ' '
  {
    var s := "Player #" + a + (", " + rest);
    assert s[..6] == "Player";
  }

  /** The tail of a rank line matches right after `x`. */
  lemma TailOfRankLine(x: string, d: string)
    requires d != [] && IsDigit(d[0])
    ensures TailAt(x + (", came in rank #" + d), |x|)
  {
    var tail := ", came in rank #";
    var s := x + (tail + d);
    var k := |x|;
    assert s[k..k + 16] == tail by {
      forall t | k <= t < k + 16 ensures s[t] == tail[t - k] {
        assert s[t] == (tail + d)[t - k];
      }
    }
    assert tail[2..6] == "came" && tail[7..9] == "in" && tail[10..14] == "rank";
    assert s[k + 2..k + 6] == s[k..k + 16][2..6];
    assert s[k + 7..k + 9] == s[k..k + 16][7..9];
    assert s[k + 10..k + 14] == s[k..k + 16][10..14];
    assert s[k + 16] == d[0];
  }

  /** No tail starts further on: the rest of the line holds no comma. */
  lemma NoLaterTail(x: string, d: string)
    requires forall t | 0 <= t < |d| :: d[t] != ','
    ensures forall j | |x| < j :: !TailAt(x + (", came in rank #" + d), j)
  {
    var tail := ", came in rank #";
    var s := x + (tail + d);
    forall j | |x| < j < |s| ensures s[j] != ',' {
      assert s[j] == (tail + d)[j - |x|];
    }
  }

  /** The rank digits after the tail read back as the rank. */
  lemma RankOfRankLine(x: string, b: string, end: string)
    requires AllDigits(b) && (end == [] || !IsDigit(end[0]))
    ensures |x| + 16 <= |x + (", came in rank #" + (b + end))|
    ensures RunValue(x + (", came in rank #" + (b + end)), |x| + 16) == DigitsValue(b)
  {
    var lit := ", came in rank #";
    Assoc3(x, lit, b + end);
    Assoc3(x + lit, b, end);
    DigitsAt(x + lit, b, end);
  }

  /** A digit run that a non-digit (or the end) closes reads back as its own value. */
  lemma DigitsAt(p: string, b: string, end: string)
    requires AllDigits(b) && (end == [] || !IsDigit(end[0]))
    ensures DigitRun(p + b + end, |p|) == |b|
    ensures RunValue(p + b + end, |p|) == DigitsValue(b)
  {
    var s := p + b + end;
    DigitRunAt(p, b, end);
    assert s[|p|..|p| + |b|] == b by {
      assert s[..|p| + |b|] == p + b;
    }
  }

  lemma DigitRunAt(p: string, b: string, end: string)
    requires AllDigits(b) && (end == [] || !IsDigit(end[0]))
    ensures DigitRun(p + b + end, |p|) == |b|
  {
    var s := p + b + end;
    var k := |p|;
    forall t | k <= t < k + |b| ensures IsDigit(s[t]) {
      assert s[t] == (p + b)[t] == b[t - k];
    }
    assert k + |b| == |s| || s[k + |b|] == end[0];
    DigitRunExact(s, k, |b|);
  }

  // ---------------------------------------------------------------- collecting winners

  /** One log line: the name of the agent it ranks first, if it does. The player number is
      1-based; number 0 indexes the last agent, as Python's `agents[-1]` does. */
  function LineWinner(agents: seq<string>, line: string): (r: Result<Option<string>>)
    ensures r.Ok? && r.value.Some? ==> r.value.value in agents
  {
    match RankMatch(line)
    case None => Ok(None)
    case Some((player, rank)) =>
      if rank != 1 then Ok(None)
      else
        var name :- AgentAt(agents, player - 1);
        Ok(Some(name))
  }

  /** A rank line names its player's agent when the rank is 1, and nobody otherwise. */
  lemma RankLineWinner(agents: seq<string>, player: nat, name: string, rank: nat, end: string)
    requires forall t | 0 <= t < |name| :: name[t] != '\n'
    requires end == "" || end == "\n"
    requires 1 <= player <= |agents|
    ensures LineWinner(agents, RankLine(player, name, rank) + end) == Ok(if rank == 1 then Some(agents[player - 1]) else None)
  {
    RankLineMatches(player, name, rank, end);
  }

  /** The rank-1 names of the lines of one log, in line order. */
  function LogWinners(agents: seq<string>, lines: seq<string>): (r: Result<seq<string>>)
    ensures r.Ok? ==> forall w | w in r.value :: w in agents
  {
    if lines == [] then Ok([])
    else
      var prev :- LogWinners(agents, lines[..|lines| - 1]);
      var w :- LineWinner(agents, lines[|lines| - 1]);
      Ok(if w.Some? then prev + [w.value] else prev)
  }

  /** The lines of a log that are examined: the last `len(agents) + 1`. */
  function Examined(agents: seq<string>, log: seq<string>): seq<string> {
    LastN(log, |agents| + 1)
  }

  /** The `winners` list over all simulation logs, in simulation order. */
  function Winners(agents: seq<string>, logs: seq<seq<string>>): (r: Result<seq<string>>)
    ensures r.Ok? ==> forall w | w in r.value :: w in agents
  {
    if logs == [] then Ok([])
    else
      var prev :- Winners(agents, logs[..|logs| - 1]);
      var more :- LogWinners(agents, Examined(agents, logs[|logs| - 1]));
      Ok(prev + more)
  }

  lemma {:induction false} LogWinnersStop(agents: seq<string>, lines: seq<string>, i: nat)
    requires i <= |lines| && LogWinners(agents, lines[..i]).Fail?
    ensures LogWinners(agents, lines) == LogWinners(agents, lines[..i])
    decreases |lines| - i
  {
    if i < |lines| {
      assert lines[..i + 1][..i] == lines[..i];
      LogWinnersStop(agents, lines, i + 1);
    } else {
      assert lines[..i] == lines;
    }
  }

  lemma {:induction false} WinnersStop(agents: seq<string>, logs: seq<seq<string>>, i: nat)
    requires i <= |logs| && Winners(agents, logs[..i]).Fail?
    ensures Winners(agents, logs) == Winners(agents, logs[..i])
    decreases |logs| - i
  {
    if i < |logs| {
      assert logs[..i + 1][..i] == logs[..i];
      WinnersStop(agents, logs, i + 1);
    } else {
      assert logs[..i] == logs;
    }
  }

  /** The inner loop over the examined lines of one log, appending to `winners`. */
  method ScanLog(agents: seq<string>, lines: seq<string>, winners: seq<string>) returns (r: Result<seq<string>>)
    ensures var found := LogWinners(agents, lines);
      && (found.Fail? ==> r == Fail(found.error))
      && (found.Ok? ==> r == Ok(winners + found.value))
  {
    var acc := winners;
    for i := 0 to |lines|
      invariant LogWinners(agents, lines[..i]).Ok?
      invariant acc == winners + LogWinners(agents, lines[..i]).value
    {
      assert lines[..i + 1][..i] == lines[..i];
      var w := LineWinner(agents, lines[i]);
      if w.Fail? {
        LogWinnersStop(agents, lines, i + 1);
        return Fail(w.error);
      }
      if w.value.Some? {
        acc := acc + [w.value.value];
      }
    }
    assert lines[..|lines|] == lines;
    return Ok(acc);
  }

  /** The outer loop of `get_results` over the simulation logs. */
  method CollectWinners(agents: seq<string>, logs: seq<seq<string>>) returns (r: Result<seq<string>>)
    ensures r == Winners(agents, logs)
  {
    var winners: seq<string> := [];
    for idx := 0 to |logs|
      invariant Winners(agents, logs[..idx]) == Ok(winners)
    {
      var next := ScanLog(agents, Examined(agents, logs[idx]), winners);
      WinnersNext(agents, logs, idx, winners);
      if next.Fail? {
        WinnersStop(agents, logs, idx + 1);
        return next;
      }
      winners := next.value;
    }
    assert logs[..|logs|] == logs;
    return Ok(winners);
  }

  lemma WinnersNext(agents: seq<string>, logs: seq<seq<string>>, idx: nat, winners: seq<string>)
    requires idx < |logs| && Winners(agents, logs[..idx]) == Ok(winners)
    ensures var found := LogWinners(agents, Examined(agents, logs[idx]));
      && (found.Fail? ==> Winners(agents, logs[..idx + 1]) == Fail(found.error))
      && (found.Ok? ==> Winners(agents, logs[..idx + 1]) == Ok(winners + found.value))
  {
    assert logs[..idx + 1][..idx] == logs[..idx];
  }


  // ---------------------------------------------------------------- the vote

  /** The distinct names of `ws` in order of first occurrence (the keys of a `Counter`). */
  function Distinct(ws: seq<string>): (r: seq<string>)
    ensures forall x :: x in r <==> x in ws
    ensures forall i, j | 0 <= i < j < |r| :: r[i] != r[j]
  {
    if ws == [] then []
    else
      var prev := Distinct(ws[..|ws| - 1]);
      var last := ws[|ws| - 1];
      assert forall x :: x in ws <==> x in ws[..|ws| - 1] || x == last;
      if last in prev then prev else prev + [last]
  }

  /** `Counter(winners)`: how many rank-1 lines each name has. */
  function Counts(ws: seq<string>): (m: map<string, nat>)
    ensures m.Keys == set w | w in ws
  {
    map n | n in multiset(ws) :: multiset(ws)[n]
  }

  /** `max(win_counts.values(), default=0)`, over the names of `names`. */
  function MaxCount(names: seq<string>, m: multiset<string>): (r: nat)
    ensures forall x | x in names :: m[x] <= r
    ensures names != [] ==> exists x | x in names :: m[x] == r
    ensures names == [] ==> r == 0
  {
    if names == [] then 0
    else
      var prev := MaxCount(names[..|names| - 1], m);
      var last := names[|names| - 1];
      assert forall x | x in names :: x in names[..|names| - 1] || x == last;
      if m[last] > prev then m[last] else prev
  }

  /** The names of `names` whose count is `c`, in order. */
  function WithCount(names: seq<string>, m: multiset<string>, c: nat): (r: seq<string>)
    ensures forall x :: x in r <==> x in names && m[x] == c
    ensures |r| <= |names|
    ensures (forall i, j | 0 <= i < j < |names| :: names[i] != names[j]) ==> forall i, j | 0 <= i < j < |r| :: r[i] != r[j]
  {
    if names == [] then []
    else
      var prev := WithCount(names[..|names| - 1], m, c);
      var last := names[|names| - 1];
      assert forall x :: x in names <==> x in names[..|names| - 1] || x == last;
      if m[last] == c then prev + [last] else prev
  }

  /** `overall_winners`: the names with the largest count, in order of first rank-1 line. */
  function Top(ws: seq<string>): seq<string> {
    WithCount(Distinct(ws), multiset(ws), MaxCount(ws, multiset(ws)))
  }

  /** The round winner: a tie when several names share the largest count, else the one
      name with it; IndexError when no line ranked anybody first. */
  function RoundWinner(ws: seq<string>): Result<string> {
    var top := Top(ws);
    if |top| > 1 then Ok(TournamentData.Tie)
    else if top == [] then Fail(IndexError)
    else Ok(top[0])
  }

  /** Two different names share the largest count. */
  ghost predicate SharedTop(ws: seq<string>) {
    exists x, y | x in ws && y in ws && x != y :: multiset(ws)[x] == MaxCount(ws, multiset(ws)) && multiset(ws)[y] == MaxCount(ws, multiset(ws))
  }

  /** The vote fails exactly when nothing was ranked first. */
  lemma RoundWinnerFails(ws: seq<string>)
    ensures RoundWinner(ws).Fail? <==> ws == []
  {
    if ws != [] {
      var m := multiset(ws);
      var x :| x in ws && m[x] == MaxCount(ws, m);
      assert x in Top(ws);
    }
  }

  /** Several names at the top count make a tie. */
  lemma RoundWinnerTie(ws: seq<string>)
    requires SharedTop(ws)
    ensures RoundWinner(ws) == Ok(TournamentData.Tie)
  {
    var m := multiset(ws);
    var top := Top(ws);
    var c := MaxCount(ws, m);
    var x, y :| x in ws && y in ws && x != y && m[x] == c && m[y] == c;
    assert x in top && y in top;
    var i :| 0 <= i < |top| && top[i] == x;
    var j :| 0 <= j < |top| && top[j] == y;
    assert i != j;
  }

  /** Otherwise the winner strictly out-counts every other name. */
  lemma RoundWinnerUnique(ws: seq<string>)
    requires ws != [] && !SharedTop(ws)
    ensures RoundWinner(ws).Ok? && RoundWinner(ws).value in ws
    ensures forall x | x in ws && x != RoundWinner(ws).value :: multiset(ws)[x] < multiset(ws)[RoundWinner(ws).value]
  {
    var m := multiset(ws);
    var top := Top(ws);
    var c := MaxCount(ws, m);
    var x :| x in ws && m[x] == c;
    forall z | z in ws && z != x ensures m[z] < c {
      OnlyOneAtTop(ws, x, z);
    }
    SoleTop(ws, x);
  }

  /** A name alone at the top count wins the round. */
  lemma SoleTop(ws: seq<string>, x: string)
    requires x in ws && multiset(ws)[x] == MaxCount(ws, multiset(ws))
    requires forall z | z in ws && z != x :: multiset(ws)[z] < MaxCount(ws, multiset(ws))
    ensures RoundWinner(ws) == Ok(x)
  {
    WithCountSingle(Distinct(ws), multiset(ws), MaxCount(ws, multiset(ws)), x);
  }

  lemma OnlyOneAtTop(ws: seq<string>, x: string, z: string)
    requires !SharedTop(ws) && x in ws && z in ws && x != z
    requires multiset(ws)[x] == MaxCount(ws, multiset(ws))
    ensures multiset(ws)[z] < MaxCount(ws, multiset(ws))
  {
  }

  lemma {:induction false} WithCountNone(names: seq<string>, m: multiset<string>, c: nat)
    requires forall z | z in names :: m[z] != c
    ensures WithCount(names, m, c) == []
  {
    if names != [] {
      WithCountNone(names[..|names| - 1], m, c);
    }
  }

  /** Among distinct names, one alone with count `c` is the whole selection. */
  lemma {:induction false} WithCountSingle(names: seq<string>, m: multiset<string>, c: nat, x: string)
    requires forall i, j | 0 <= i < j < |names| :: names[i] != names[j]
    requires x in names && m[x] == c
    requires forall z | z in names && z != x :: m[z] != c
    ensures WithCount(names, m, c) == [x]
  {
    var init := names[..|names| - 1];
    var last := names[|names| - 1];
    assert forall z | z in init :: z in names;
    if last == x {
      assert forall z | z in init :: z != x;
      WithCountNone(init, m, c);
    } else {
      assert x in init;
      WithCountSingle(init, m, c, x);
    }
  }

  // ---------------------------------------------------------------- get_results

  /** The record's new player entries: every counted player other than the tie marker
      gets its count as score. */
  function ScoredEntries(before: map<string, Option<int>>, counts: map<string, nat>): map<string, Option<int>> {
    map p | p in before :: if p in counts && p != TournamentData.Tie then Some(counts[p] as int) else before[p]
  }

  /** `get_results`: collect the winners, vote, then write the winner, the counts as
      scores, and each counted player's score into the record. */
  method GetResults(agents: seq<string>, logs: seq<seq<string>>, stats: RoundStats) returns (r: Result<()>)
    requires forall a | a in agents :: a in stats.playerScores
    modifies stats
    ensures var ws := Winners(agents, logs);
      && (ws.Fail? ==> r == Fail(ws.error) && unchanged(stats))
      && (ws.Ok? && ws.value == [] ==> r == Fail(IndexError) && unchanged(stats))
      && (ws.Ok? && ws.value != [] ==>
            && r.Ok? && RoundWinner(ws.value).Ok?
            && stats.winner == RoundWinner(ws.value).value
            && stats.scores == Counts(ws.value)
            && stats.playerScores == ScoredEntries(old(stats.playerScores), Counts(ws.value)))
  {
    var ws := CollectWinners(agents, logs);
    if ws.Fail? {
      return Fail(ws.error);
    }
    var winners := ws.value;
    RoundWinnerFails(winners);
    var w := RoundWinner(winners);
    if w.Fail? {
      return Fail(w.error);
    }
    var counts := Counts(winners);
    stats.winner := w.value;
    stats.scores := counts;
    SetPlayerScores(stats, counts);
    return Ok(());
  }

  /** The loop over the counts that writes each player's score. */
  method SetPlayerScores(stats: RoundStats, counts: map<string, nat>)
    modifies stats
    ensures stats.winner == old(stats.winner) && stats.scores == old(stats.scores)
    ensures stats.playerScores == ScoredEntries(old(stats.playerScores), counts)
  {
    ghost var before := stats.playerScores;
    var todo := counts.Keys;
    while todo != {}
      invariant todo <= counts.Keys
      invariant stats.winner == old(stats.winner) && stats.scores == old(stats.scores)
      invariant stats.playerScores.Keys == before.Keys
      invariant forall p | p in before ::
        stats.playerScores[p] == (if p in counts && p !in todo && p != TournamentData.Tie then Some(counts[p] as int) else before[p])
      decreases todo
    {
      var p :| p in todo;
      if p != TournamentData.Tie && p in stats.playerScores {
        stats.playerScores := stats.playerScores[p := Some(counts[p] as int)];
      }
      todo := todo - {p};
    }
  }

  /** Halite accepts every submission. */
  function ValidateCode(agent: string): (r: (bool, Option<string>))
    ensures r.0 && r.1.None?
  {
    (true, None)
  }
}
