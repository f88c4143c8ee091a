/** The player-versus-player training driver: rounds played one after another, each
    followed by every agent's turn, and a closing step that always runs. The game and the
    agents are outside this model; what the driver asks of them is recorded as a trace of
    actions, and what the game answers is given as one outcome per round. */
module PvpTraining {
  import opened Wrappers

  /** The context an agent is created with. */
  datatype GameContext = GameContext(id: string, playerId: string, round: int, rounds: int, workingDir: string)

  /** An agent: its name, the name of its environment and its context. */
  datatype Player = Player(name: string, environment: string, context: GameContext)

  /** What the game's run_round answers for one round: it raises, or it reports the round's
      log, its result text and its winner. */
  datatype Outcome =
    | Raises(error: Error)
    | Played(logOutput: string, resultOutput: string, winner: string)

  /** One request the driver makes of the game, the file system or an agent. */
  datatype Action =
    | PlayRound(round: int)
    | WriteRoundLog(round: int, text: string)
    | CopyLog(agent: string, round: int)
    | PreRunHook(agent: string, round: int)
    | AgentRun(agent: string)
    | PostRunHook(agent: string, round: int)
    | WriteMetadata(text: string)
    | GameEnd(cleanup: bool)
    | Push(agent: string)

  /** The agent built for one entry of the configuration's player list. */
  function NewPlayer(gameId: string, name: string, rounds: int, workingDir: string): Player
  {
    Player(name, gameId + "." + name, GameContext(gameId, name, 1, rounds, workingDir))
  }

  /** The number of rounds `range(1, rounds + 1)` yields. */
  function RoundCount(rounds: int): nat
  {
    if rounds < 0 then 0 else rounds
  }

  /** One agent's turn in round `r`. */
  function Turn(agent: string, r: int): seq<Action>
  {
    [PreRunHook(agent, r), AgentRun(agent), PostRunHook(agent, r)]
  }

  /** The round log copied to every agent, in list order. */
  function Copies(ps: seq<Player>, r: int): seq<Action>
  {
    seq(|ps|, i requires 0 <= i < |ps| => CopyLog(ps[i].name, r))
  }

  /** Every agent's turn, in list order. */
  function Turns(ps: seq<Player>, r: int): seq<Action>
  {
    seq(3 * |ps|, i requires 0 <= i < 3 * |ps| => Turn(ps[i / 3].name, r)[i % 3])
  }

  /** Every agent pushed, in list order. */
  function Pushes(ps: seq<Player>): seq<Action>
  {
    seq(|ps|, i requires 0 <= i < |ps| => Push(ps[i].name))
  }

  /** What one training round asks for: the game round, and when it did not raise, the
      round log written locally, copied to every agent, then every agent's turn. */
  function RoundActions(ps: seq<Player>, r: int, o: Outcome): seq<Action>
  {
    [PlayRound(r)] + (if o.Raises? then [] else [WriteRoundLog(r, o.logOutput)] + Copies(ps, r) + Turns(ps, r))
  }

  /** What the first `m` rounds ask for. */
  function RoundsActions(ps: seq<Player>, os: seq<Outcome>, m: nat): seq<Action>
    requires m <= |os|
  {
    if m == 0 then [] else RoundsActions(ps, os, m - 1) + RoundActions(ps, m, os[m - 1])
  }

  /** What the closing step asks for: the game's metadata written, the game ended, then
      every agent pushed when pushing is enabled. */
  function EndActions(ps: seq<Player>, cleanup: bool, push: bool, gameMetadata: string): seq<Action>
  {
    [WriteMetadata(gameMetadata), GameEnd(cleanup)] + (if push then Pushes(ps) else [])
  }

  /** The number of leading rounds of `os[..n]` that did not raise: the index of the first
      raising round, or `n` when none raises. */
  function FirstRaise(os: seq<Outcome>, n: nat): (k: nat)
    requires n <= |os|
    ensures k <= n
    ensures forall i :: 0 <= i < k ==> os[i].Played?
    ensures k < n ==> os[k].Raises?
  {
    if n == 0 then 0
    else
      var k := FirstRaise(os, n - 1);
      if k < n - 1 then k else if os[n - 1].Raises? then n - 1 else n
  }

  /** How many rounds `run` asks the game to play out of `n`: up to and including the
      first that raises. */
  function Attempted(os: seq<Outcome>, n: nat): (m: nat)
    requires n <= |os|
    ensures m <= n
  {
    var k := FirstRaise(os, n);
    if k < n then k + 1 else n
  }

  /** The scoreboard entry a round adds: one naming its winner when it was played, none
      when it raised. */
  function Entry(r: int, o: Outcome): seq<(int, string)>
  {
    if o.Played? then [(r, o.winner)] else []
  }

  /** The scoreboard entries of the first `k` rounds. */
  function Board(os: seq<Outcome>, k: nat): seq<(int, string)>
    requires k <= |os|
  {
    if k == 0 then [] else Board(os, k - 1) + Entry(k, os[k - 1])
  }

  /** The round numbers the game was asked to play, in order. */
  function RoundsOf(acts: seq<Action>): seq<int>
  {
    if acts == [] then []
    else (if acts[0].PlayRound? then [acts[0].round] else []) + RoundsOf(acts[1..])
  }

  /** How many times the game was ended. */
  function EndsIn(acts: seq<Action>): nat
  {
    if acts == [] then 0
    else (if acts[0].GameEnd? then 1 else 0) + EndsIn(acts[1..])
  }

  /** The numbers `1 .. m`. */
  function Upto(m: nat): seq<int>
  {
    if m == 0 then [] else Upto(m - 1) + [m]
  }

  class PvpTraining {
    var players: seq<Player>
    var rounds: int
    var cleanup: bool
    var pushAgent: bool
    var scoreboard: seq<(int, string)>
    var trace: seq<Action>

    /** A driver with one agent per configured player, each starting at round 1 of
        `rounds`, and an empty scoreboard. */
    constructor(gameId: string, names: seq<string>, rounds: int, workingDir: string, cleanup: bool, pushAgent: bool)
      ensures |players| == |names|
      ensures forall i :: 0 <= i < |names| ==> players[i] == NewPlayer(gameId, names[i], rounds, workingDir)
      ensures forall i :: 0 <= i < |names| ==>
                players[i].context.round == 1 && players[i].context.rounds == rounds
      ensures this.rounds == rounds && this.cleanup == cleanup && this.pushAgent == pushAgent
      ensures scoreboard == [] && trace == []
    {
      var ps: seq<Player> := [];
      for i := 0 to |names|
        invariant |ps| == i
        invariant forall j :: 0 <= j < i ==> ps[j] == NewPlayer(gameId, names[j], rounds, workingDir)
      {
        ps := ps + [NewPlayer(gameId, names[i], rounds, workingDir)];
      }
      players := ps;
      this.rounds := rounds;
      this.cleanup := cleanup;
      this.pushAgent := pushAgent;
      scoreboard := [];
      trace := [];
    }

    /** One agent's turn: the pre-run hook, the run, the post-run hook. */
    method RunAgent(agent: Player, r: int)
      modifies this
      ensures trace == old(trace) + Turn(agent.name, r)
      ensures scoreboard == old(scoreboard) && players == old(players)
      ensures rounds == old(rounds) && cleanup == old(cleanup) && pushAgent == old(pushAgent)
    {
      trace := trace + [PreRunHook(agent.name, r)];
      trace := trace + [AgentRun(agent.name)];
      trace := trace + [PostRunHook(agent.name, r)];
    }

    /** One training round: a round that raises leaves the scoreboard as it was; otherwise
        the winner is recorded, the log written and copied, and every agent takes a turn. */
    method RunTrainingRound(r: int, o: Outcome) returns (res: Result<()>)
      modifies this
      ensures res.Fail? <==> o.Raises?
      ensures o.Raises? ==> res == Fail(o.error)
      ensures scoreboard == old(scoreboard) + Entry(r, o)
      ensures trace == old(trace) + RoundActions(players, r, o)
      ensures players == old(players) && rounds == old(rounds)
      ensures cleanup == old(cleanup) && pushAgent == old(pushAgent)
    {
      trace := trace + [PlayRound(r)];
      if o.Raises? {
        return Fail(o.error);
      }
      scoreboard := scoreboard + [(r, o.winner)];
      trace := trace + [WriteRoundLog(r, o.logOutput)];
      CopyLogToAgents(r);
      RunAgents(r);
      res := Ok(());
    }

    /** The round log copied to every agent's environment, in list order. */
    method CopyLogToAgents(r: int)
      modifies this
      ensures trace == old(trace) + Copies(players, r)
      ensures scoreboard == old(scoreboard) && players == old(players)
      ensures rounds == old(rounds) && cleanup == old(cleanup) && pushAgent == old(pushAgent)
    {
      var ps := players;
      for i := 0 to |ps|
        invariant trace == old(trace) + Copies(ps[..i], r)
        invariant scoreboard == old(scoreboard) && players == ps
        invariant rounds == old(rounds) && cleanup == old(cleanup) && pushAgent == old(pushAgent)
      {
        assert ps[..i + 1][..i] == ps[..i];
        trace := trace + [CopyLog(ps[i].name, r)];
      }
      assert ps[..|ps|] == ps;
    }

    /** Every agent's turn, in list order. */
    method RunAgents(r: int)
      modifies this
      ensures trace == old(trace) + Turns(players, r)
      ensures scoreboard == old(scoreboard) && players == old(players)
      ensures rounds == old(rounds) && cleanup == old(cleanup) && pushAgent == old(pushAgent)
    {
      var ps := players;
      for i := 0 to |ps|
        invariant trace == old(trace) + Turns(ps[..i], r)
        invariant scoreboard == old(scoreboard) && players == ps
        invariant rounds == old(rounds) && cleanup == old(cleanup) && pushAgent == old(pushAgent)
      {
        assert ps[..i + 1][..i] == ps[..i];
        RunAgent(ps[i], r);
      }
      assert ps[..|ps|] == ps;
    }

    /** The closing step: the game's metadata written, the game ended, and every agent
        pushed when pushing is enabled. */
    method End(gameMetadata: string)
      modifies this
      ensures trace == old(trace) + EndActions(players, cleanup, pushAgent, gameMetadata)
      ensures scoreboard == old(scoreboard) && players == old(players)
      ensures rounds == old(rounds) && cleanup == old(cleanup) && pushAgent == old(pushAgent)
    {
      trace := trace + [WriteMetadata(gameMetadata), GameEnd(cleanup)];
      if pushAgent {
        var ps := players;
        ghost var start := trace;
        for i := 0 to |ps|
          invariant trace == start + Pushes(ps[..i])
          invariant scoreboard == old(scoreboard) && players == ps
          invariant rounds == old(rounds) && cleanup == old(cleanup) && pushAgent == old(pushAgent)
        {
          assert ps[..i + 1][..i] == ps[..i];
          trace := trace + [Push(ps[i].name)];
        }
        assert ps[..|ps|] == ps;
      }
    }

    /** The loop of `run`: rounds 1 to `rounds` in turn, stopping at the first round that
        raises, whose error is the result. */
    method RunRounds(outcomes: seq<Outcome>) returns (res: Result<()>)
      requires RoundCount(rounds) <= |outcomes|
      modifies this
      ensures players == old(players) && rounds == old(rounds)
      ensures cleanup == old(cleanup) && pushAgent == old(pushAgent)
      ensures var k := FirstRaise(outcomes, RoundCount(rounds));
              && scoreboard == old(scoreboard) + Board(outcomes, Attempted(outcomes, RoundCount(rounds)))
              && trace == old(trace) + RoundsActions(players, outcomes, Attempted(outcomes, RoundCount(rounds)))
              && (res.Fail? <==> k < RoundCount(rounds))
              && (res.Fail? ==> res == Fail(outcomes[k].error))
    {
      var n := RoundCount(rounds);
      var ps := players;
      var round := 1;
      while round <= n
        invariant players == ps && rounds == old(rounds)
        invariant cleanup == old(cleanup) && pushAgent == old(pushAgent)
        invariant 1 <= round <= n + 1
        invariant forall i :: 0 <= i < round - 1 ==> outcomes[i].Played?
        invariant scoreboard == old(scoreboard) + Board(outcomes, round - 1)
        invariant trace == old(trace) + RoundsActions(ps, outcomes, round - 1)
      {
        ghost var board, acts := scoreboard, trace;
        var r := RunTrainingRound(round, outcomes[round - 1]);
        Assoc(old(scoreboard), Board(outcomes, round - 1), Entry(round, outcomes[round - 1]));
        Assoc(old(trace), RoundsActions(ps, outcomes, round - 1), RoundActions(ps, round, outcomes[round - 1]));
        if r.Fail? {
          FirstRaiseIs(outcomes, n, round - 1);
          assert Attempted(outcomes, n) == round;
          return r;
        }
        round := round + 1;
      }
      FirstRaiseIs(outcomes, n, n);
      assert Attempted(outcomes, n) == n && round == n + 1;
      res := Ok(());
    }

    /** `run`: the rounds, then the closing step, which runs whether or not a round
        raised; the first raising round's error is the result. */
    method Run(outcomes: seq<Outcome>, gameMetadata: string) returns (res: Result<()>)
      requires RoundCount(rounds) <= |outcomes|
      modifies this
      ensures var k := FirstRaise(outcomes, RoundCount(old(rounds)));
              && scoreboard == old(scoreboard) + Board(outcomes, Attempted(outcomes, RoundCount(old(rounds))))
              && trace == old(trace) + RoundsActions(old(players), outcomes, Attempted(outcomes, RoundCount(old(rounds))))
                          + EndActions(old(players), old(cleanup), old(pushAgent), gameMetadata)
              && (res.Fail? <==> k < RoundCount(old(rounds)))
              && (res.Fail? ==> res == Fail(outcomes[k].error))
      ensures players == old(players) && rounds == old(rounds)
    {
      res := RunRounds(outcomes);
      End(gameMetadata);
    }
  }

  lemma Assoc<T>(a: seq<T>, b: seq<T>, c: seq<T>)
    ensures (a + b) + c == a + (b + c)
  {
  }

  /** The first raising round is the one before which every round was played and which
      raises itself (or the end of the rounds). */
  lemma {:induction false} FirstRaiseIs(os: seq<Outcome>, n: nat, j: nat)
    requires j <= n <= |os|
    requires forall i :: 0 <= i < j ==> os[i].Played?
    requires j < n ==> os[j].Raises?
    ensures FirstRaise(os, n) == j
  {
    if n > 0 && j < n {
      if j < n - 1 {
        FirstRaiseIs(os, n - 1, j);
      } else {
        FirstRaiseIs(os, n - 1, n - 1);
      }
    } else if n > 0 {
      FirstRaiseIs(os, n - 1, n - 1);
    }
  }

  /** The scoreboard holds one entry per played round, in round order: entry `i` is round
      `i + 1` and its winner. */
  lemma {:induction false} BoardAt(os: seq<Outcome>, k: nat)
    requires k <= |os|
    requires forall i :: 0 <= i < k ==> os[i].Played?
    ensures |Board(os, k)| == k
    ensures forall i :: 0 <= i < k ==> Board(os, k)[i] == (i + 1, os[i].winner)
  {
    if k > 0 {
      BoardAt(os, k - 1);
    }
  }

  /** A round that raises adds no scoreboard entry: the rounds `run` attempts leave the
      entries of the rounds before the first raise, numbered 1 to that round's predecessor. */
  lemma NoEntryForRaisingRound(os: seq<Outcome>, n: nat)
    requires n <= |os|
    ensures var k := FirstRaise(os, n);
            && Board(os, Attempted(os, n)) == Board(os, k)
            && |Board(os, k)| == k
            && forall e :: e in Board(os, k) ==> 1 <= e.0 <= k
  {
    var k := FirstRaise(os, n);
    BoardAt(os, k);
    if k < n {
      assert Board(os, k + 1) == Board(os, k) + Entry(k + 1, os[k]);
    }
  }

  /** Agent `i`'s turn is the `i`-th block of three: its pre-run hook, its run and its
      post-run hook, with nothing between them. */
  lemma TurnsAt(ps: seq<Player>, r: int)
    ensures forall i :: 0 <= i < |ps| ==> Turns(ps, r)[3 * i .. 3 * i + 3] == Turn(ps[i].name, r)
  {
    forall i | 0 <= i < |ps|
      ensures Turns(ps, r)[3 * i .. 3 * i + 3] == Turn(ps[i].name, r)
    {
      var t := Turns(ps, r);
      assert t[3 * i] == PreRunHook(ps[i].name, r);
      assert t[3 * i + 1] == AgentRun(ps[i].name);
      assert t[3 * i + 2] == PostRunHook(ps[i].name, r);
    }
  }

  /** Turns hold hooks and runs only: no log copy, no round, no end. */
  lemma TurnsOnlyHooks(ps: seq<Player>, r: int)
    ensures forall i :: 0 <= i < |Turns(ps, r)| ==>
              var a := Turns(ps, r)[i]; a.PreRunHook? || a.AgentRun? || a.PostRunHook?
  {
    TurnsAt(ps, r);
    forall i | 0 <= i < |Turns(ps, r)|
      ensures var a := Turns(ps, r)[i]; a.PreRunHook? || a.AgentRun? || a.PostRunHook?
    {
      var j := i / 3;
      assert Turns(ps, r)[i] == Turns(ps, r)[3 * j .. 3 * j + 3][i - 3 * j];
    }
  }

  /** In a played round, the log reaches every agent before any agent's turn begins: every
      log copy comes before every pre-run hook. */
  lemma CopiesPrecedeTurns(ps: seq<Player>, r: int, o: Outcome)
    requires o.Played?
    ensures var acts := RoundActions(ps, r, o);
            forall i, j :: 0 <= i < |acts| && 0 <= j < |acts| && acts[i].CopyLog? && acts[j].PreRunHook? ==> i < j
  {
    var acts := RoundActions(ps, r, o);
    TurnsOnlyHooks(ps, r);
    var b := 2 + |ps|;
    assert acts == [PlayRound(r), WriteRoundLog(r, o.logOutput)] + Copies(ps, r) + Turns(ps, r);
    forall i | b <= i < |acts|
      ensures !acts[i].CopyLog?
    {
      assert acts[i] == Turns(ps, r)[i - b];
    }
    forall j | 0 <= j < b
      ensures !acts[j].PreRunHook?
    {
      if j >= 2 {
        assert acts[j] == Copies(ps, r)[j - 2];
      }
    }
  }

  /** In a played round every agent receives the round log and then takes its turn. */
  lemma EveryAgentServed(ps: seq<Player>, r: int, o: Outcome)
    requires o.Played?
    ensures forall i :: 0 <= i < |ps| ==>
              && CopyLog(ps[i].name, r) in RoundActions(ps, r, o)
              && PreRunHook(ps[i].name, r) in RoundActions(ps, r, o)
              && PostRunHook(ps[i].name, r) in RoundActions(ps, r, o)
  {
    var acts := RoundActions(ps, r, o);
    var b := 2 + |ps|;
    assert acts == [PlayRound(r), WriteRoundLog(r, o.logOutput)] + Copies(ps, r) + Turns(ps, r);
    forall i | 0 <= i < |ps|
      ensures CopyLog(ps[i].name, r) in acts
      ensures PreRunHook(ps[i].name, r) in acts && PostRunHook(ps[i].name, r) in acts
    {
      assert acts[2 + i] == CopyLog(ps[i].name, r);
      assert acts[b + 3 * i] == PreRunHook(ps[i].name, r);
      assert acts[b + 3 * i + 2] == PostRunHook(ps[i].name, r);
    }
  }

  /** Round numbers of a concatenation add up. */
  lemma {:induction false} RoundsAppend(a: seq<Action>, b: seq<Action>)
    ensures RoundsOf(a + b) == RoundsOf(a) + RoundsOf(b)
  {
    if a != [] {
      assert (a + b)[1..] == a[1..] + b;
      RoundsAppend(a[1..], b);
    } else {
      assert a + b == b;
    }
  }

  /** End counts of a concatenation add up. */
  lemma {:induction false} EndsAppend(a: seq<Action>, b: seq<Action>)
    ensures EndsIn(a + b) == EndsIn(a) + EndsIn(b)
  {
    if a != [] {
      assert (a + b)[1..] == a[1..] + b;
      EndsAppend(a[1..], b);
    } else {
      assert a + b == b;
    }
  }

  /** A run of actions with no round and no end contributes nothing to either count. */
  lemma {:induction false} NoCounts(acts: seq<Action>)
    requires forall i :: 0 <= i < |acts| ==> !acts[i].PlayRound? && !acts[i].GameEnd?
    ensures RoundsOf(acts) == [] && EndsIn(acts) == 0
  {
    if acts != [] {
      NoCounts(acts[1..]);
    }
  }

  /** What follows the game round holds neither a game round nor an end. */
  lemma AfterPlayQuiet(ps: seq<Player>, r: int, o: Outcome)
    ensures var rest := RoundActions(ps, r, o)[1..];
            forall i :: 0 <= i < |rest| ==> !rest[i].PlayRound? && !rest[i].GameEnd?
  {
    if o.Played? {
      var c := Copies(ps, r);
      var t := Turns(ps, r);
      TurnsOnlyHooks(ps, r);
      QuietJoin(WriteRoundLog(r, o.logOutput), c, t);
      assert RoundActions(ps, r, o)[1..] == [WriteRoundLog(r, o.logOutput)] + c + t;
    }
  }

  /** An action followed by two runs of actions, none of which is a game round or an end. */
  lemma QuietJoin(w: Action, c: seq<Action>, t: seq<Action>)
    requires !w.PlayRound? && !w.GameEnd?
    requires forall i :: 0 <= i < |c| ==> !c[i].PlayRound? && !c[i].GameEnd?
    requires forall i :: 0 <= i < |t| ==> !t[i].PlayRound? && !t[i].GameEnd?
    ensures var x := [w] + c + t;
            forall i :: 0 <= i < |x| ==> !x[i].PlayRound? && !x[i].GameEnd?
  {
    var x := [w] + c + t;
    forall i | 0 <= i < |x| ensures !x[i].PlayRound? && !x[i].GameEnd? {
      if i == 0 {
      } else if i <= |c| {
        assert x[i] == c[i - 1];
      } else {
        assert x[i] == t[i - 1 - |c|];
      }
    }
  }

  /** Hence it adds to neither count. */
  lemma AfterPlayCounts(ps: seq<Player>, r: int, o: Outcome)
    ensures var rest := RoundActions(ps, r, o)[1..];
            RoundsOf(rest) == [] && EndsIn(rest) == 0
  {
    AfterPlayQuiet(ps, r, o);
    NoCounts(RoundActions(ps, r, o)[1..]);
  }

  /** A training round asks for exactly one game round, its own. */
  lemma OneRoundEach(ps: seq<Player>, r: int, o: Outcome)
    ensures RoundsOf(RoundActions(ps, r, o)) == [r]
  {
    AfterPlayCounts(ps, r, o);
  }

  /** A training round never ends the game. */
  lemma NoEndInRound(ps: seq<Player>, r: int, o: Outcome)
    ensures EndsIn(RoundActions(ps, r, o)) == 0
  {
    AfterPlayCounts(ps, r, o);
  }

  /** The game is asked to play rounds 1, 2, ..., m, each once, in increasing order. */
  lemma {:induction false} RoundsInOrder(ps: seq<Player>, os: seq<Outcome>, m: nat)
    requires m <= |os|
    ensures RoundsOf(RoundsActions(ps, os, m)) == Upto(m)
  {
    if m > 0 {
      RoundsInOrder(ps, os, m - 1);
      OneRoundEach(ps, m, os[m - 1]);
      RoundsAppend(RoundsActions(ps, os, m - 1), RoundActions(ps, m, os[m - 1]));
    }
  }

  /** The game is never ended while rounds run. */
  lemma {:induction false} NoEndWhileRounds(ps: seq<Player>, os: seq<Outcome>, m: nat)
    requires m <= |os|
    ensures EndsIn(RoundsActions(ps, os, m)) == 0
  {
    if m > 0 {
      NoEndWhileRounds(ps, os, m - 1);
      NoEndInRound(ps, m, os[m - 1]);
      EndsAppend(RoundsActions(ps, os, m - 1), RoundActions(ps, m, os[m - 1]));
    }
  }

  /** Whatever the rounds did, the whole run ends the game exactly once. */
  lemma EndOnce(ps: seq<Player>, os: seq<Outcome>, m: nat, cleanup: bool, push: bool, gameMetadata: string)
    requires m <= |os|
    ensures EndsIn(RoundsActions(ps, os, m) + EndActions(ps, cleanup, push, gameMetadata)) == 1
  {
    NoEndWhileRounds(ps, os, m);
    var pushes := if push then Pushes(ps) else [];
    NoCounts(pushes);
    EndsAppend([WriteMetadata(gameMetadata)], [GameEnd(cleanup)]);
    EndsAppend([WriteMetadata(gameMetadata), GameEnd(cleanup)], pushes);
    EndsAppend(RoundsActions(ps, os, m), EndActions(ps, cleanup, push, gameMetadata));
    assert [WriteMetadata(gameMetadata)][..0] == [];
    assert [GameEnd(cleanup)][..0] == [];
  }
}
