/** The per-round record a tournament writes into its `metadata.json` under
    `round_stats`, as the rating scripts read it back. */
module TournamentData {
  import opened Wrappers
  import opened Text

  /** The winner name a game reports for a drawn round. */
  const Tie: string := "Tie"

  /** A JSON field that may be missing, be `null`, or hold a boolean. */
  datatype Flag = Absent | Null | Present(b: bool)

  datatype PlayerStats = PlayerStats(score: Option<real>, validSubmit: Flag)

  /** `winner` is None when the key is missing; `playerStats` keeps the JSON object's order. */
  datatype RoundStats = RoundStats(
    winner: Option<string>,
    scores: map<string, real>,
    playerStats: seq<(string, PlayerStats)>)

  /** `sum(x["valid_submit"] for x in player_stats.values() if x.get("valid_submit") is not None)`:
      the number of players whose submission was valid. */
  function ValidSubmits(ps: seq<(string, PlayerStats)>): (n: nat)
    ensures n <= |ps|
    ensures n == 0 <==> forall i | 0 <= i < |ps| :: ps[i].1.validSubmit != Present(true)
  {
    if ps == [] then 0
    else ValidSubmits(ps[..|ps| - 1]) + (if ps[|ps| - 1].1.validSubmit == Present(true) then 1 else 0)
  }

  /** A player of `config.players` in `metadata.json`: its `name` and its
      `config.model.model_name`, None where the key is missing. */
  datatype PlayerConfig = PlayerConfig(name: Option<string>, modelName: Option<string>)

  /** `folder_name.split(".")[1]`: the arena (game) name inside a tournament folder name such
      as `PvpTournament.BattleSnake.r5...`; IndexError when the name has no dot. */
  function ArenaOf(folderName: string): (r: Result<string>)
    ensures r.Ok? <==> '.' in folderName
    ensures r.Ok? ==>
      var rest := folderName[IndexOf(folderName, '.').value + 1..];
      '.' !in r.value && r.value <= rest && (|r.value| == |rest| || rest[|r.value|] == '.')
  {
    var parts := Split(folderName, '.');
    if |parts| < 2 then Fail(IndexError)
    else
      var i := IndexOf(folderName, '.').value;
      var rest := folderName[i + 1..];
      assert parts[1] == Split(rest, '.')[0];
      SplitFirst(rest, '.');
      Ok(parts[1])
  }

  /** The first piece of a split is a prefix that ends at the end or at a separator. */
  lemma SplitFirst(s: string, c: char)
    ensures var p := Split(s, c)[0]; p <= s && (|p| == |s| || s[|p|] == c)
  {
  }
}
