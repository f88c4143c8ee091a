/** The BattleCode game, in its two versions: `codeclash/games/battlecode/main.py` and
    `codeclash/games/battlecode/battlecode.py`. Both build the same run command, read the
    winner from the third-to-last line of the game's output, and run one game per round
    between two players. */
module BattleCode {
  import opened Wrappers
  import opened Text
  import opened RunCommand
  import TournamentData

  // ---------------------------------------------------------------- the constructor

  const BattleProgram: string := "python run.py run"

  /** The constructor of both versions: exactly two players, then the program followed by
      the config's `args` (none when the config has no `args`). */
  method NewGame(players: seq<string>, args: Option<seq<(string, ArgValue)>>) returns (r: Result<string>)
    ensures |players| != 2 <==> r == Fail(AssertionError)
    ensures var given := if args.None? then [] else args.value;
      && (|players| == 2 ==> r == Ok(BattleProgram + Pieces("--", given)))
      && (|players| == 2 && Plain("--", given) ==> Words(r.value) == Words(BattleProgram) + ArgWords("--", given))
  {
    if |players| != 2 {
      return Fail(AssertionError);
    }
    var given := if args.None? then [] else args.value;
    var cmd := BuildRunCommand(BattleProgram, "--", given);
    if Plain("--", given) {
      CommandWords(BattleProgram, "--", given);
    }
    return Ok(cmd);
  }

  // ---------------------------------------------------------------- the winner pattern

  /** `\s\(` at `i`. */
  predicate OpenAt(s: string, i: int) {
    0 <= i && i + 2 <= |s| && IsSpace(s[i]) && s[i + 1] == '('
  }

  /** `\)\swins\s\(` at `j`. */
  predicate CloseAt(s: string, j: int) {
    0 <= j && j + 8 <= |s| && s[j] == ')' && IsSpace(s[j + 1])
    && s[j + 2] == 'w' && s[j + 3] == 'i' && s[j + 4] == 'n' && s[j + 5] == 's'
    && IsSpace(s[j + 6]) && s[j + 7] == '('
  }

  /** `.` matches everything but a newline. */
  predicate OneLine(s: string, p: int, k: int) {
    forall t | p <= t < k && 0 <= t < |s| :: s[t] != '\n'
  }

  /** A closing part the greedy group that starts at `p` can reach. */
  predicate Closes(s: string, p: nat, j: int) {
    CloseAt(s, j) && OneLine(s, p, j)
  }

  /** Where the greedy `(.*)` that starts at `p` stops: the last reachable closing part at
      or before `k`. */
  function LastClose(s: string, p: nat, k: int): (r: Option<nat>)
    decreases if k < p then 0 else k - p + 1
    ensures r.Some? ==> p <= r.value <= k && r.value + 8 <= |s|
  {
    if k < p then None
    else if Closes(s, p, k) then Some(k)
    else LastClose(s, p, k - 1)
  }

  lemma {:induction false} LastCloseFound(s: string, p: nat, k: int)
    requires LastClose(s, p, k).Some?
    ensures Closes(s, p, LastClose(s, p, k).value)
    decreases if k < p then 0 else k - p + 1
  {
    if !Closes(s, p, k) {
      LastCloseFound(s, p, k - 1);
    }
  }

  /** Greediness: no reachable closing part lies beyond the one found. */
  lemma {:induction false} LastCloseLast(s: string, p: nat, k: int, j: int)
    requires LastClose(s, p, k).Some? && LastClose(s, p, k).value < j <= k
    ensures !Closes(s, p, j)
    decreases if k < p then 0 else k - p + 1
  {
    if j < k {
      LastCloseLast(s, p, k - 1, j);
    }
  }

  lemma {:induction false} LastCloseNone(s: string, p: nat, k: int, j: int)
    requires LastClose(s, p, k).None? && p <= j <= k
    ensures !Closes(s, p, j)
    decreases if k < p then 0 else k - p + 1
  {
    if j < k {
      LastCloseNone(s, p, k - 1, j);
    }
  }

  /** A match that starts at `i`: its group, the text between the parentheses. */
  function KeyAt(s: string, i: nat): Option<string>
    requires i <= |s|
  {
    if OpenAt(s, i) && LastClose(s, i + 2, |s|).Some? then Some(s[i + 2..LastClose(s, i + 2, |s|).value])
    else None
  }

  /** `re.search(r"\s\((.*)\)\swins\s\(", s)` from index `i` on: the group of the leftmost
      match. */
  function KeyMatchFrom(s: string, i: nat): Option<string>
    requires i <= |s|
    decreases |s| - i
  {
    var m := KeyAt(s, i);
    if m.Some? then m
    else if i == |s| then None
    else KeyMatchFrom(s, i + 1)
  }

  function KeyMatch(line: string): Option<string> {
    KeyMatchFrom(line, 0)
  }

  /** `re.search` finds the leftmost start at which the pattern matches: every earlier
      start fails, and no start matches at all when nothing is found. */
  lemma {:induction false} KeyMatchLeftmost(s: string, i: nat)
    requires i <= |s|
    ensures KeyMatchFrom(s, i).Some? ==>
      exists k | i <= k <= |s| :: KeyAt(s, k) == KeyMatchFrom(s, i) && forall t | i <= t < k :: KeyAt(s, t).None?
    ensures KeyMatchFrom(s, i).None? ==> forall t | i <= t <= |s| :: KeyAt(s, t).None?
    decreases |s| - i
  {
    if KeyAt(s, i).None? && i < |s| {
      KeyMatchLeftmost(s, i + 1);
      if KeyMatchFrom(s, i).Some? {
        var k :| i + 1 <= k <= |s| && KeyAt(s, k) == KeyMatchFrom(s, i + 1) && forall t | i + 1 <= t < k :: KeyAt(s, t).None?;
        assert forall t | i <= t < k :: KeyAt(s, t).None?;
      }
    }
  }

  // ---------------------------------------------------------------- the winner line

  /** A line that announces a winner: `<pre> (<key>) wins (<post>`. */
  function WinsLine(pre: string, key: string, post: string): string {
    pre + " (" + key + ") wins (" + post
  }

  /** The pattern reads the key back out of such a line, as long as nothing before it
      opens a parenthesis, nothing after it closes one, and the key stays on one line. */
  lemma WinsLineKey(pre: string, key: string, post: string)
    requires forall t | 0 <= t < |pre| :: pre[t] != '('
    requires forall t | 0 <= t < |key| :: key[t] != '\n'
    requires forall t | 0 <= t < |post| :: post[t] != ')'
    ensures KeyMatch(WinsLine(pre, key, post)) == Some(key)
  {
    var s := WinsLine(pre, key, post);
    var a := |pre|;
    WinsLineChars(pre, key, post);
    forall t | 0 <= t < a ensures !OpenAt(s, t) {
      assert s[t + 1] == (if t + 1 < a then pre[t + 1] else ' ');
    }
    SkipNoOpen(s, 0, a);
    WinsLineClose(pre, key, post);
    assert s[a + 2..a + 2 + |key|] == key;
  }

  /** Where the pieces of a winner line sit. */
  lemma WinsLineChars(pre: string, key: string, post: string)
    ensures var s := WinsLine(pre, key, post);
      var j := |pre| + 2 + |key|;
      && |s| == j + 8 + |post|
      && (forall t | 0 <= t < |pre| :: s[t] == pre[t])
      && s[|pre|] == ' ' && s[|pre| + 1] == '('
      && (forall t | |pre| + 2 <= t < j :: s[t] == key[t - |pre| - 2])
      && s[j..j + 8] == ") wins ("
      && (forall t | j + 8 <= t < |s| :: s[t] == post[t - j - 8])
  {
    var x := pre + " (" + key;
    var s := x + ") wins (" + post;
    var j := |x|;
    forall t | 0 <= t < j ensures s[t] == x[t] {
      assert s[t] == (x + ") wins (")[t];
    }
    forall t | 0 <= t < |pre| ensures x[t] == pre[t] {
      assert x[t] == (pre + " (")[t];
    }
    assert x[|pre|] == ' ' && x[|pre| + 1] == '(';
    assert s[j..j + 8] == ") wins (";
  }

  /** The group of a winner line ends right after the key. */
  lemma WinsLineClose(pre: string, key: string, post: string)
    requires forall t | 0 <= t < |key| :: key[t] != '\n'
    requires forall t | 0 <= t < |post| :: post[t] != ')'
    ensures var s := WinsLine(pre, key, post);
      LastClose(s, |pre| + 2, |s|) == Some(|pre| + 2 + |key|)
  {
    var s := WinsLine(pre, key, post);
    var p := |pre| + 2;
    var j := p + |key|;
    WinsLineChars(pre, key, post);
    assert s[j..j + 8] == ") wins (";
    assert s[j] == ')' && s[j + 1] == ' ' && s[j + 2] == 'w' && s[j + 3] == 'i' && s[j + 4] == 'n'
      && s[j + 5] == 's' && s[j + 6] == ' ' && s[j + 7] == '(';
    assert OneLine(s, p, j) by {
      forall t | p <= t < j ensures s[t] != '\n' {
        assert s[t] == key[t - p];
      }
    }
    forall i | j < i ensures !CloseAt(s, i) {
      if i < j + 8 {
        assert s[i] == ") wins ("[i - j];
      } else if i < |s| {
        assert s[i] == post[i - j - 8];
      }
    }
    LastCloseIs(s, p, |s|, j);
  }

  /** The greedy group ends at a closing part it reaches when none follows. */
  lemma {:induction false} LastCloseIs(s: string, p: nat, k: int, j: nat)
    requires p <= j <= k && Closes(s, p, j)
    requires forall i | j < i :: !CloseAt(s, i)
    ensures LastClose(s, p, k) == Some(j)
    decreases k - j
  {
    if k > j {
      LastCloseIs(s, p, k - 1, j);
    }
  }

  /** Starts that cannot open a match are skipped. */
  lemma {:induction false} SkipNoOpen(s: string, i: nat, a: nat)
    requires i <= a <= |s|
    requires forall t | i <= t < a :: !OpenAt(s, t)
    ensures KeyMatchFrom(s, i) == KeyMatchFrom(s, a)
    decreases a - i
  {
    if i < a {
      SkipNoOpen(s, i + 1, a);
    }
  }

  // ---------------------------------------------------------------- determine_winner

  /** The lines of the output once it is stripped. */
  function StrippedLines(output: string): seq<string> {
    Split(Strip(output), '\n')
  }

  /** The third-to-last line, or nothing when there are fewer than three. */
  function WinnerLine(lines: seq<string>): string {
    if |lines| >= 3 then lines[|lines| - 3] else ""
  }

  /** The A/B mapping: "A" is the first agent, "B" the second, anything else a tie. Both
      agents are looked up before the key is, so fewer than two agents is an IndexError. */
  function FromKey(agents: seq<string>, key: string): Result<string> {
    if |agents| < 2 then Fail(IndexError)
    else if key == "A" then Ok(agents[0])
    else if key == "B" then Ok(agents[1])
    else Ok(TournamentData.Tie)
  }

  /** `determine_winner` (and the winner part of `get_results`): a tie unless the winner
      line names A or B. */
  function DetermineWinner(agents: seq<string>, output: string): (r: Result<string>)
    ensures r.Fail? <==> KeyMatch(WinnerLine(StrippedLines(output))).Some? && |agents| < 2
    ensures r.Fail? ==> r.error == IndexError
    ensures r.Ok? ==> r.value == TournamentData.Tie || (|agents| >= 2 && (r.value == agents[0] || r.value == agents[1]))
  {
    LineWinner(agents, WinnerLine(StrippedLines(output)))
  }

  /** The winner the winner line names. */
  function LineWinner(agents: seq<string>, line: string): Result<string> {
    match KeyMatch(line)
    case None => Ok(TournamentData.Tie)
    case Some(key) => FromKey(agents, key)
  }

  /** Output of fewer than three lines has no winner line: a tie. */
  lemma ShortOutputTie(agents: seq<string>, output: string)
    requires |StrippedLines(output)| < 3
    ensures DetermineWinner(agents, output) == Ok(TournamentData.Tie)
  {
    assert !OpenAt("", 0);
  }

  /** A winner line decides the round by its key: A for the first agent, B for the
      second, anything else a tie. */
  lemma WinnerOfWinsLine(agents: seq<string>, pre: string, key: string, post: string)
    requires forall t | 0 <= t < |pre| :: pre[t] != '('
    requires forall t | 0 <= t < |key| :: key[t] != '\n'
    requires forall t | 0 <= t < |post| :: post[t] != ')'
    ensures LineWinner(agents, WinsLine(pre, key, post)) == FromKey(agents, key)
    ensures |agents| >= 2 && key == "A" ==> LineWinner(agents, WinsLine(pre, key, post)) == Ok(agents[0])
    ensures |agents| >= 2 && key == "B" ==> LineWinner(agents, WinsLine(pre, key, post)) == Ok(agents[1])
  {
    WinsLineKey(pre, key, post);
  }

  // ---------------------------------------------------------------- get_results (battlecode.py)

  /** What `get_results` reports: the round winner and each agent's score. */
  datatype Outcome = Outcome(winner: string, scores: map<string, nat>)

  /** `get_results` of `battlecode.py`: the winners list holds the one entry read from the
      log, so the vote over it is that entry, and each agent scores the number of times it
      appears in the list. */
  function GetResults(agents: seq<string>, log: string): (r: Result<Outcome>)
    ensures DetermineWinner(agents, log).Fail? <==> r.Fail?
    ensures r.Fail? ==> r.error == IndexError
    ensures r.Ok? ==> r.value.winner == DetermineWinner(agents, log).value
    ensures r.Ok? ==> r.value.scores.Keys == set a | a in agents
    ensures r.Ok? ==> forall a | a in agents :: r.value.scores[a] == if a == r.value.winner then 1 else 0
  {
    match DetermineWinner(agents, log)
    case Fail(e) => Fail(e)
    case Ok(w) =>
      var winners := [w];
      Ok(Outcome(w, map a | a in agents :: multiset(winners)[a]))
  }

  /** Between two different players, one point is handed out when a player wins and none
      on a tie. */
  lemma GetResultsPoints(agents: seq<string>, log: string)
    requires |agents| == 2 && agents[0] != agents[1] && TournamentData.Tie !in agents
    ensures var r := GetResults(agents, log);
      && r.Ok?
      && r.value.scores[agents[0]] + r.value.scores[agents[1]] == if r.value.winner == TournamentData.Tie then 0 else 1
  {
  }

  // ---------------------------------------------------------------- execute_round

  /** The copy of one agent's submission into the game's source tree. */
  function CopyCommand(agent: string, workDir: string): string {
    "cp -r /" + agent + "/src/mysubmission/ " + workDir + "/src/" + agent
  }

  /** One copy command per agent, in the order of the agents. */
  method CopySubmissions(agents: seq<string>, workDir: string) returns (cmds: seq<string>)
    ensures |cmds| == |agents|
    ensures forall i | 0 <= i < |agents| :: cmds[i] == CopyCommand(agents[i], workDir)
  {
    cmds := [];
    for i := 0 to |agents|
      invariant |cmds| == i
      invariant forall j | 0 <= j < i :: cmds[j] == CopyCommand(agents[j], workDir)
    {
      cmds := cmds + [CopyCommand(agents[i], workDir)];
    }
  }

  function DirFlag(i: nat): string { "--p" + NatToString(i) + "-dir" }

  function NameFlag(i: nat): string { "--p" + NatToString(i) }

  /** The words run.py is meant to receive for the player in position `i` (counted from 1):
      its directory flag and value, then its name flag and value. */
  function PlayerWords(i: nat, agent: string): seq<string> {
    [DirFlag(i), "src", NameFlag(i), agent]
  }

  /** The argument text of that player: its words joined by spaces. */
  function PlayerArg(i: nat, agent: string): string {
    Join(PlayerWords(i, agent), " ")
  }

  /** The argument texts of `agents`, the first in position `k`. */
  function PlayerArgsFrom(k: nat, agents: seq<string>): (r: seq<string>)
    decreases |agents|
    ensures |r| == |agents|
    ensures forall i | 0 <= i < |agents| :: r[i] == PlayerArg(k + i, agents[i])
  {
    if agents == [] then []
    else [PlayerArg(k, agents[0])] + PlayerArgsFrom(k + 1, agents[1..])
  }

  function PlayerArgs(agents: seq<string>): seq<string> {
    PlayerArgsFrom(1, agents)
  }

  /** The words of all players, in order. */
  function PlayerWordsFrom(k: nat, agents: seq<string>): seq<string>
    decreases |agents|
  {
    if agents == [] then []
    else PlayerWords(k, agents[0]) + PlayerWordsFrom(k + 1, agents[1..])
  }

  /** The game command of `battlecode.py`: the arguments joined with spaces, the output
      sent to the round's log file. */
  function GameCommand(runCmd: string, agents: seq<string>, logEnv: string): string {
    runCmd + " " + Join(PlayerArgs(agents), " ") + " > " + logEnv + "/sim.log"
  }

  /** The flags are single words made of dashes, letters and digits. */
  lemma FlagsAreWords(i: nat)
    ensures IsWord(DirFlag(i)) && IsWord(NameFlag(i))
    ensures '\'' !in DirFlag(i) && '\'' !in NameFlag(i)
  {
    var n := NatToString(i);
    var d := DirFlag(i);
    forall j | 0 <= j < |d| ensures !IsSpace(d[j]) && d[j] != '\'' {
      if j < 3 {
        assert d[j] == "--p"[j];
      } else if j < 3 + |n| {
        assert d[j] == n[j - 3];
      } else {
        assert d[j] == "-dir"[j - 3 - |n|];
      }
    }
    var f := NameFlag(i);
    forall j | 0 <= j < |f| ensures !IsSpace(f[j]) && f[j] != '\'' {
      if j < 3 {
        assert f[j] == "--p"[j];
      } else {
        assert f[j] == n[j - 3];
      }
    }
  }

  /** A player's argument text splits into its two flags and their values. */
  lemma PlayerArgWords(i: nat, agent: string)
    requires IsWord(agent)
    ensures Words(PlayerArg(i, agent)) == PlayerWords(i, agent)
  {
    FlagsAreWords(i);
    assert IsWord("src");
    JoinWords(PlayerWords(i, agent));
  }

  /** Joined with spaces, the argument texts read as the intended flags and values. */
  lemma {:induction false} JoinedPlayerWords(k: nat, agents: seq<string>)
    requires forall a | a in agents :: IsWord(a)
    ensures Words(Join(PlayerArgsFrom(k, agents), " ")) == PlayerWordsFrom(k, agents)
    decreases |agents|
  {
    var parts := PlayerArgsFrom(k, agents);
    if agents == [] {
      WordsUnfold("");
    } else if |agents| == 1 {
      PlayerArgWords(k, agents[0]);
      assert PlayerWordsFrom(k + 1, agents[1..]) == [];
    } else {
      var rest := Join(parts[1..], " ");
      assert parts[1..] == PlayerArgsFrom(k + 1, agents[1..]);
      assert forall a | a in agents[1..] :: a in agents;
      JoinedPlayerWords(k + 1, agents[1..]);
      PlayerArgWords(k, agents[0]);
      JoinCons(parts, " ");
      WordsAfterSpace(rest);
      WordsAppend(parts[0], " " + rest);
      assert Words(Join(parts, " ")) == PlayerWords(k, agents[0]) + PlayerWordsFrom(k + 1, agents[1..]);
    }
  }

  // ---------------------------------------------------------------- the shuffle

  /** Every pick of `random.shuffle` at step `i` is at most `i`. */
  predicate ValidPicks(picks: seq<nat>) {
    forall i | 1 <= i < |picks| :: picks[i] <= i
  }

  function Swap(s: seq<string>, i: nat, j: nat): (r: seq<string>)
    requires i < |s| && j < |s|
    ensures |r| == |s|
  {
    s[i := s[j]][j := s[i]]
  }

  /** `random.shuffle` with its random choices given as `picks`: for each position from the
      last down to the second, swap it with the picked one. `k` positions are still to do. */
  function ShuffleDown(s: seq<string>, picks: seq<nat>, k: nat): (r: seq<string>)
    requires k <= |s| == |picks| && ValidPicks(picks)
    ensures |r| == |s|
    decreases k
  {
    if k <= 1 then s else ShuffleDown(Swap(s, k - 1, picks[k - 1]), picks, k - 1)
  }

  function Shuffled(s: seq<string>, picks: seq<nat>): seq<string>
    requires |s| == |picks| && ValidPicks(picks)
  {
    ShuffleDown(s, picks, |s|)
  }

  lemma SwapPermutes(s: seq<string>, i: nat, j: nat)
    requires i < |s| && j < |s|
    ensures multiset(Swap(s, i, j)) == multiset(s)
  {
  }

  /** The shuffle only reorders the players. */
  lemma {:induction false} ShufflePermutes(s: seq<string>, picks: seq<nat>, k: nat)
    requires k <= |s| == |picks| && ValidPicks(picks)
    ensures multiset(ShuffleDown(s, picks, k)) == multiset(s)
    decreases k
  {
    if k > 1 {
      SwapPermutes(s, k - 1, picks[k - 1]);
      ShufflePermutes(Swap(s, k - 1, picks[k - 1]), picks, k - 1);
    }
  }

  /** Picks that never move anything leave the order as it was. */
  lemma {:induction false} ShuffleStays(s: seq<string>, picks: seq<nat>, k: nat)
    requires k <= |s| == |picks| && ValidPicks(picks)
    requires forall i | 1 <= i < |picks| :: picks[i] == i
    ensures ShuffleDown(s, picks, k) == s
    decreases k
  {
    if k > 1 {
      assert Swap(s, k - 1, k - 1) == s;
      ShuffleStays(s, picks, k - 1);
    }
  }

  /** The shuffle in place: the players end up in the order `Shuffled` gives. */
  method Shuffle(a: array<string>, picks: seq<nat>)
    requires a.Length == |picks| && ValidPicks(picks)
    modifies a
    ensures a[..] == Shuffled(old(a[..]), picks)
    ensures multiset(a[..]) == multiset(old(a[..]))
  {
    var k := a.Length;
    while k > 1
      invariant 0 <= k <= a.Length
      invariant ShuffleDown(a[..], picks, k) == Shuffled(old(a[..]), picks)
    {
      var j := picks[k - 1];
      assert Swap(a[..], k - 1, j) == a[..][k - 1 := a[j]][j := a[k - 1]];
      a[k - 1], a[j] := a[j], a[k - 1];
      k := k - 1;
    }
    ShufflePermutes(old(a[..]), picks, a.Length);
  }

  /** `execute_round` of `battlecode.py`: copy every submission in, shuffle the players in
      place, and run the game with its output in the round's log; a non-zero return code
      fails the assertion. The issued commands are returned in order. */
  method ExecuteRound(agents: array<string>, picks: seq<nat>, runCmd: string, workDir: string, logEnv: string, returncode: int)
    returns (cmds: seq<string>, r: Result<()>)
    requires agents.Length == |picks| && ValidPicks(picks)
    modifies agents
    ensures agents[..] == Shuffled(old(agents[..]), picks)
    ensures |cmds| == agents.Length + 1
    ensures forall i | 0 <= i < agents.Length :: cmds[i] == CopyCommand(old(agents[..])[i], workDir)
    ensures cmds[agents.Length] == GameCommand(runCmd, agents[..], logEnv)
    ensures r.Ok? <==> returncode == 0
    ensures r.Fail? ==> r.error == AssertionError
  {
    cmds := CopySubmissions(agents[..], workDir);
    Shuffle(agents, picks);
    cmds := cmds + [GameCommand(runCmd, agents[..], logEnv)];
    r := if returncode == 0 then Ok(()) else Fail(AssertionError);
  }

  // ---------------------------------------------------------------- execute_round (main.py)

  /** The game command as `main.py` writes it: the argument texts passed through
      `shlex.join`. */
  function QuotedGameCommand(runCmd: string, agents: seq<string>): string {
    runCmd + " " + ShellJoin(PlayerArgs(agents))
  }

  /** Each player's argument text contains spaces, so `shlex.join` puts it in single quotes
      and the shell hands it to run.py as one argument instead of four. */
  lemma QuotedPlayerArg(i: nat, agent: string)
    requires '\'' !in agent
    ensures ShellQuote(PlayerArg(i, agent)) == "'" + PlayerArg(i, agent) + "'"
  {
    var ws := PlayerWords(i, agent);
    var x := PlayerArg(i, agent);
    var d := DirFlag(i);
    JoinCons(ws, " ");
    assert x == d + (" " + Join(ws[1..], " "));
    assert x[|d|] == ' ' && !ShellSafe(x[|d|]);
    FlagsAreWords(i);
    JoinAvoids(ws, " ", '\'');
    EscapeQuotesNone(x);
  }

  /** Every piece `shlex.join` places in the command is one of the quoted argument texts. */
  lemma QuotedGameCommandPieces(agents: seq<string>)
    requires forall a | a in agents :: '\'' !in a
    ensures var args := PlayerArgs(agents);
      forall i | 0 <= i < |agents| ::
        ShellQuote(args[i]) == "'" + PlayerArg(i + 1, agents[i]) + "'"
  {
    forall i | 0 <= i < |agents|
      ensures ShellQuote(PlayerArgs(agents)[i]) == "'" + PlayerArg(i + 1, agents[i]) + "'"
    {
      assert agents[i] in agents;
      QuotedPlayerArg(i + 1, agents[i]);
    }
  }

  /** `execute_round` of `main.py`: copy every submission in, run the game on the players in
      their given order, and hand back its output as both the log and the result; a
      non-zero return code fails the assertion. The command is the one `main.py` builds,
      with every player's argument text quoted by `shlex.join`. */
  method ExecuteRoundOutput(agents: seq<string>, runCmd: string, workDir: string, returncode: int, output: string)
    returns (cmds: seq<string>, r: Result<(string, string)>)
    ensures |cmds| == |agents| + 1
    ensures forall i | 0 <= i < |agents| :: cmds[i] == CopyCommand(agents[i], workDir)
    ensures cmds[|agents|] == QuotedGameCommand(runCmd, agents)
    ensures r.Ok? <==> returncode == 0
    ensures r.Ok? ==> r.value == (output, output)
    ensures r.Fail? ==> r.error == AssertionError
  {
    cmds := CopySubmissions(agents, workDir);
    cmds := cmds + [QuotedGameCommand(runCmd, agents)];
    if returncode != 0 {
      return cmds, Fail(AssertionError);
    }
    r := Ok((output, output));
  }
}
