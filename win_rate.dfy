/** The win-rate tally of `codeclash/ratings/win_rate.py`: every tournament folder adds its
    number of rounds to the play count of each of its players (keyed "game.player"), and
    every round that is not a tie adds one win to its winner's profile. */
module WinRate {
  import opened Wrappers
  import opened TournamentData

  datatype PlayerGameProfile = PlayerGameProfile(playerId: string, gameId: string, wins: int, count: int)

  /** `wins / count`, or exactly 0.0 for a profile that was never counted. */
  function WinRate(p: PlayerGameProfile): (r: real)
    ensures p.count > 0 ==> r * p.count as real == p.wins as real
    ensures p.count <= 0 ==> r == 0.0
  {
    if p.count > 0 then p.wins as real / p.count as real else 0.0
  }

  /** A profile that has no more wins than games has a win rate between 0 and 1. */
  lemma WinRateBounds(p: PlayerGameProfile)
    requires 0 <= p.wins <= p.count
    ensures 0.0 <= WinRate(p) <= 1.0
  {
    if p.count > 0 {
      var r := WinRate(p);
      if r > 1.0 {
        ProductAbove(r, p.count as real);
      }
      if r < 0.0 {
        ProductBelow(r, p.count as real);
      }
    }
  }

  lemma ProductAbove(r: real, c: real)
    requires r > 1.0 && c > 0.0
    ensures r * c > c
  {
  }

  lemma ProductBelow(r: real, c: real)
    requires r < 0.0 && c > 0.0
    ensures r * c < 0.0
  {
  }

  /** A tournament log folder, as the script sees it: its name, the names of the
      sub-folders of `players/`, and the `winner` of each round's `results.json`
      (None where the key is missing). */
  datatype GameLogFolder = GameLogFolder(name: string, players: seq<string>, winners: seq<Option<string>>)

  /** The dictionary key of a player in a game. */
  function Key(game: string, player: string): (k: string)
    ensures |k| == |game| + 1 + |player| && k[..|game|] == game && k[|game|] == '.'
    ensures k[|game| + 1..] == player
  {
    game + "." + player
  }

  /** The key a round's winner is looked up under: a missing winner formats as "None". */
  function WinnerKey(game: string, winner: Option<string>): string {
    Key(game, if winner.None? then "None" else winner.value)
  }

  // ---------------------------------------------------------------- specification

  /** The play count and the wins of `k`, 0 when there is no profile. */
  function CountOf(profiles: map<string, PlayerGameProfile>, k: string): int {
    if k in profiles then profiles[k].count else 0
  }

  function WinsOf(profiles: map<string, PlayerGameProfile>, k: string): int {
    if k in profiles then profiles[k].wins else 0
  }

  /** One player's count update: `n` more games, creating the profile on first sight. */
  function AddCount(profiles: map<string, PlayerGameProfile>, game: string, player: string, n: int)
    : (r: map<string, PlayerGameProfile>)
    ensures r.Keys == profiles.Keys + {Key(game, player)}
    ensures Key(game, player) !in profiles ==> r[Key(game, player)] == PlayerGameProfile(player, game, 0, n)
    ensures forall k | k in profiles && k != Key(game, player) :: r[k] == profiles[k]
  {
    var k := Key(game, player);
    if k in profiles then profiles[k := profiles[k].(count := profiles[k].count + n)]
    else profiles[k := PlayerGameProfile(player, game, 0, n)]
  }

  /** The count phase of one folder, over its players in order. */
  function AddCounts(profiles: map<string, PlayerGameProfile>, game: string, players: seq<string>, n: int)
    : map<string, PlayerGameProfile>
  {
    if players == [] then profiles
    else AddCount(AddCounts(profiles, game, players[..|players| - 1], n), game, players[|players| - 1], n)
  }

  /** The win phase of one folder, over its rounds in order: a tie adds nothing, any other
      winner must already have a profile in this game (KeyError otherwise). */
  function AddWins(profiles: map<string, PlayerGameProfile>, game: string, winners: seq<Option<string>>)
    : Result<map<string, PlayerGameProfile>>
  {
    if winners == [] then Ok(profiles)
    else
      var prev :- AddWins(profiles, game, winners[..|winners| - 1]);
      AddWin(prev, game, winners[|winners| - 1])
  }

  function AddWin(profiles: map<string, PlayerGameProfile>, game: string, winner: Option<string>)
    : Result<map<string, PlayerGameProfile>>
  {
    if winner == Some(Tie) then Ok(profiles)
    else
      var k := WinnerKey(game, winner);
      if k !in profiles then Fail(KeyError(k))
      else Ok(profiles[k := profiles[k].(wins := profiles[k].wins + 1)])
  }

  /** One folder: the game id, then the counts, then the wins. */
  function FolderOutcome(profiles: map<string, PlayerGameProfile>, f: GameLogFolder)
    : Result<map<string, PlayerGameProfile>>
  {
    var game :- ArenaOf(f.name);
    AddWins(AddCounts(profiles, game, f.players, |f.winners|), game, f.winners)
  }

  /** All folders in order, starting from no profiles. */
  function Profiles(folders: seq<GameLogFolder>): Result<map<string, PlayerGameProfile>> {
    if folders == [] then Ok(map[])
    else
      var prev :- Profiles(folders[..|folders| - 1]);
      FolderOutcome(prev, folders[|folders| - 1])
  }

  // ---------------------------------------------------------------- properties

  /** How many of `players` have the key `k` in `game`. */
  function Occurrences(game: string, players: seq<string>, k: string): nat {
    if players == [] then 0
    else Occurrences(game, players[..|players| - 1], k) + (if Key(game, players[|players| - 1]) == k then 1 else 0)
  }

  /** How many of `winners` add a win under the key `k`. */
  function WinsFor(game: string, winners: seq<Option<string>>, k: string): (c: nat)
    ensures c <= |winners|
  {
    if winners == [] then 0
    else
      var w := winners[|winners| - 1];
      WinsFor(game, winners[..|winners| - 1], k) + (if w != Some(Tie) && WinnerKey(game, w) == k then 1 else 0)
  }

  /** The count phase adds `n` per occurrence of the key among the players, touches no
      win, and creates exactly the keys of the players. */
  lemma {:induction false} AddCountsEffect(profiles: map<string, PlayerGameProfile>, game: string,
                                           players: seq<string>, n: int, k: string)
    ensures var r := AddCounts(profiles, game, players, n);
      && (k in r <==> k in profiles || Occurrences(game, players, k) > 0)
      && CountOf(r, k) == CountOf(profiles, k) + n * Occurrences(game, players, k)
      && WinsOf(r, k) == WinsOf(profiles, k)
  {
    if players != [] {
      var init := players[..|players| - 1];
      AddCountsEffect(profiles, game, init, n, k);
      MulSucc(n, Occurrences(game, init, k));
    }
  }

  /** The win phase succeeds exactly when every non-tie winner already has a profile,
      and then adds one win per round won, leaving the keys and counts alone. */
  lemma {:induction false} AddWinsEffect(profiles: map<string, PlayerGameProfile>, game: string,
                                         winners: seq<Option<string>>, k: string)
    ensures var r := AddWins(profiles, game, winners);
      && (r.Ok? <==> forall i | 0 <= i < |winners| && winners[i] != Some(Tie) :: WinnerKey(game, winners[i]) in profiles)
      && (r.Ok? ==> r.value.Keys == profiles.Keys
                    && CountOf(r.value, k) == CountOf(profiles, k)
                    && WinsOf(r.value, k) == WinsOf(profiles, k) + WinsFor(game, winners, k))
  {
    if winners != [] {
      var init := winners[..|winners| - 1];
      AddWinsEffect(profiles, game, init, k);
      var w := winners[|winners| - 1];
      var prev := AddWins(profiles, game, init);
      if prev.Ok? && w != Some(Tie) && WinnerKey(game, w) !in profiles {
        assert winners[|winners| - 1] == w;
      }
      if prev.Fail? {
        var i :| 0 <= i < |init| && init[i] != Some(Tie) && WinnerKey(game, init[i]) !in profiles;
        assert winners[i] == init[i];
      }
    }
  }

  /** Every profile has at least as many games as wins, and never negative wins. */
  ghost predicate Sane(profiles: map<string, PlayerGameProfile>) {
    forall k | k in profiles :: 0 <= profiles[k].wins <= profiles[k].count
  }

  /** A folder whose every non-tie winner is one of its players. */
  ghost predicate WinnersArePlayers(f: GameLogFolder) {
    forall i | 0 <= i < |f.winners| && f.winners[i] != Some(Tie) :: f.winners[i].Some? && f.winners[i].value in f.players
  }

  /** A key that receives a win in a folder is the key of one of the folder's players. */
  lemma {:induction false} WinsForPlayers(game: string, f: GameLogFolder, winners: seq<Option<string>>, k: string)
    requires forall i | 0 <= i < |winners| && winners[i] != Some(Tie) :: winners[i].Some? && winners[i].value in f.players
    requires WinsFor(game, winners, k) > 0
    ensures Occurrences(game, f.players, k) > 0
  {
    var init := winners[..|winners| - 1];
    var w := winners[|winners| - 1];
    if w != Some(Tie) && WinnerKey(game, w) == k {
      var j :| 0 <= j < |f.players| && f.players[j] == w.value;
      OccurrencesOfMember(game, f.players, j);
    } else {
      WinsForPlayers(game, f, init, k);
    }
  }

  lemma {:induction false} OccurrencesOfMember(game: string, players: seq<string>, j: nat)
    requires j < |players|
    ensures Occurrences(game, players, Key(game, players[j])) > 0
  {
    if j < |players| - 1 {
      OccurrencesOfMember(game, players[..|players| - 1], j);
    }
  }

  /** A folder whose winners are among its players keeps every win rate between 0 and 1:
      each of its players gains its rounds as games and at most that many wins. */
  lemma FolderKeepsSane(profiles: map<string, PlayerGameProfile>, f: GameLogFolder)
    requires Sane(profiles) && WinnersArePlayers(f)
    requires FolderOutcome(profiles, f).Ok?
    ensures Sane(FolderOutcome(profiles, f).value)
  {
    var game := ArenaOf(f.name).value;
    var r := FolderOutcome(profiles, f).value;
    forall k | k in r ensures 0 <= r[k].wins <= r[k].count {
      FolderKeepsSaneAt(profiles, f, game, k);
    }
  }

  lemma FolderKeepsSaneAt(profiles: map<string, PlayerGameProfile>, f: GameLogFolder, game: string, k: string)
    requires Sane(profiles) && WinnersArePlayers(f)
    requires ArenaOf(f.name) == Ok(game)
    requires AddWins(AddCounts(profiles, game, f.players, |f.winners|), game, f.winners).Ok?
    ensures var r := AddWins(AddCounts(profiles, game, f.players, |f.winners|), game, f.winners).value;
      k in r ==> 0 <= r[k].wins <= r[k].count
  {
    var n := |f.winners|;
    var counted := AddCounts(profiles, game, f.players, n);
    var r := AddWins(counted, game, f.winners).value;
    if k in r {
      AddCountsEffect(profiles, game, f.players, n, k);
      AddWinsEffect(counted, game, f.winners, k);
      var occ := Occurrences(game, f.players, k);
      var won := WinsFor(game, f.winners, k);
      if won > 0 {
        WinsForPlayers(game, f, f.winners, k);
        MoreThanOnce(n, occ);
      }
      if k !in profiles {
        NewProfile(profiles, game, f.players, n, k);
      }
    }
  }

  lemma MulSucc(n: int, c: int)
    ensures n * (c + 1) == n * c + n
  {
  }

  lemma MoreThanOnce(n: nat, occ: nat)
    requires occ > 0
    ensures n * occ >= n
  {
  }

  /** A profile created by the count phase starts with no wins and its count is a
      non-negative multiple of the rounds. */
  lemma {:induction false} NewProfile(profiles: map<string, PlayerGameProfile>, game: string,
                                      players: seq<string>, n: nat, k: string)
    requires k !in profiles && k in AddCounts(profiles, game, players, n)
    ensures AddCounts(profiles, game, players, n)[k].wins == 0
    ensures AddCounts(profiles, game, players, n)[k].count >= 0
  {
    var init := players[..|players| - 1];
    var prev := AddCounts(profiles, game, init, n);
    if k in prev {
      NewProfile(profiles, game, init, n, k);
    }
  }

  /** When every folder's winners are its own players, every final win rate lies in [0, 1]. */
  lemma {:induction false} ProfilesSane(folders: seq<GameLogFolder>)
    requires forall i | 0 <= i < |folders| :: WinnersArePlayers(folders[i])
    requires Profiles(folders).Ok?
    ensures Sane(Profiles(folders).value)
    ensures forall k | k in Profiles(folders).value :: 0.0 <= WinRate(Profiles(folders).value[k]) <= 1.0
  {
    if folders != [] {
      var init := folders[..|folders| - 1];
      ProfilesSane(init);
      FolderKeepsSane(Profiles(init).value, folders[|folders| - 1]);
    }
    var r := Profiles(folders).value;
    forall k | k in r ensures 0.0 <= WinRate(r[k]) <= 1.0 {
      WinRateBounds(r[k]);
    }
  }

  // ---------------------------------------------------------------- the script's loops

  lemma {:induction false} ProfilesStop(folders: seq<GameLogFolder>, i: nat)
    requires i <= |folders| && Profiles(folders[..i]).Fail?
    ensures Profiles(folders) == Profiles(folders[..i])
    decreases |folders| - i
  {
    if i < |folders| {
      assert folders[..i + 1][..i] == folders[..i];
      ProfilesStop(folders, i + 1);
    } else {
      assert folders[..i] == folders;
    }
  }

  lemma {:induction false} AddWinsStop(profiles: map<string, PlayerGameProfile>, game: string,
                                       winners: seq<Option<string>>, i: nat)
    requires i <= |winners| && AddWins(profiles, game, winners[..i]).Fail?
    ensures AddWins(profiles, game, winners) == AddWins(profiles, game, winners[..i])
    decreases |winners| - i
  {
    if i < |winners| {
      assert winners[..i + 1][..i] == winners[..i];
      AddWinsStop(profiles, game, winners, i + 1);
    } else {
      assert winners[..i] == winners;
    }
  }

  lemma ProfilesNext(folders: seq<GameLogFolder>, i: nat, cur: map<string, PlayerGameProfile>)
    requires i < |folders| && Profiles(folders[..i]) == Ok(cur)
    ensures Profiles(folders[..i + 1]) == FolderOutcome(cur, folders[i])
  {
    assert folders[..i + 1][..i] == folders[..i];
  }

  /** The count loop of one folder. */
  method CountPlayers(profiles: map<string, PlayerGameProfile>, game: string, players: seq<string>, n: int)
    returns (cur: map<string, PlayerGameProfile>)
    ensures cur == AddCounts(profiles, game, players, n)
  {
    cur := profiles;
    for j := 0 to |players|
      invariant cur == AddCounts(profiles, game, players[..j], n)
    {
      assert players[..j + 1][..j] == players[..j];
      var k := Key(game, players[j]);
      if k in cur {
        cur := cur[k := cur[k].(count := cur[k].count + n)];
      } else {
        cur := cur[k := PlayerGameProfile(players[j], game, 0, n)];
      }
    }
    assert players[..|players|] == players;
  }

  /** The win loop of one folder. */
  method CountWins(counted: map<string, PlayerGameProfile>, game: string, winners: seq<Option<string>>)
    returns (r: Result<map<string, PlayerGameProfile>>)
    ensures r == AddWins(counted, game, winners)
  {
    var cur := counted;
    for j := 0 to |winners|
      invariant AddWins(counted, game, winners[..j]) == Ok(cur)
    {
      assert winners[..j + 1][..j] == winners[..j];
      var winner := winners[j];
      if winner != Some(Tie) {
        var k := WinnerKey(game, winner);
        if k !in cur {
          AddWinsStop(counted, game, winners, j + 1);
          return Fail(KeyError(k));
        }
        cur := cur[k := cur[k].(wins := cur[k].wins + 1)];
      }
    }
    assert winners[..|winners|] == winners;
    return Ok(cur);
  }

  /** The body of the folder loop of `main`. */
  method ProcessFolder(profiles: map<string, PlayerGameProfile>, f: GameLogFolder)
    returns (r: Result<map<string, PlayerGameProfile>>)
    ensures r == FolderOutcome(profiles, f)
  {
    var g := ArenaOf(f.name);
    if g.Fail? {
      return Fail(g.error);
    }
    var counted := CountPlayers(profiles, g.value, f.players, |f.winners|);
    r := CountWins(counted, g.value, f.winners);
  }

  /** `main` without its printing: the profiles after every folder, or the first error. */
  method Tally(folders: seq<GameLogFolder>) returns (r: Result<map<string, PlayerGameProfile>>)
    ensures r == Profiles(folders)
  {
    var profiles: map<string, PlayerGameProfile> := map[];
    for i := 0 to |folders|
      invariant Profiles(folders[..i]) == Ok(profiles)
    {
      ProfilesNext(folders, i, profiles);
      var next := ProcessFolder(profiles, folders[i]);
      if next.Fail? {
        ProfilesStop(folders, i + 1);
        return next;
      }
      profiles := next.value;
    }
    assert folders[..|folders|] == folders;
    return Ok(profiles);
  }
}
