/** What the game result parsers share: Python's list indexing into the agents of a round,
    and the per-round record (`RoundStats`) a parser fills in. The record's own class lives
    in `codeclash/games/game.py`, which is not part of this model; it is kept to the three
    fields the parsers write. */
module GameStats {
  import opened Wrappers

  /** `agents[idx]` with Python's negative indexing; IndexError outside the list. */
  function AgentAt(agents: seq<string>, idx: int): (r: Result<string>)
    ensures r.Ok? <==> -|agents| <= idx < |agents|
    ensures 0 <= idx < |agents| ==> r == Ok(agents[idx])
    ensures -|agents| <= idx < 0 ==> r == Ok(agents[|agents| + idx])
  {
    if 0 <= idx < |agents| then Ok(agents[idx])
    else if -|agents| <= idx < 0 then Ok(agents[|agents| + idx])
    else Fail(IndexError)
  }

  /** The round record: the winner, the scores by player name, and the `score` of each
      player's entry in `player_stats` (None until a parser sets it). */
  class RoundStats {
    var winner: string
    var scores: map<string, int>
    var playerScores: map<string, Option<int>>

    /** A fresh record for a round among `agents`: one empty player entry per agent. */
    constructor (agents: seq<string>)
      ensures winner == "" && scores == map[]
      ensures playerScores == map a | a in agents :: None
    {
      winner := "";
      scores := map[];
      playerScores := map a | a in agents :: None;
    }
  }
}
