/** The pairwise score matrix of `elo2.py`: every rated round of a two-player tournament
    becomes a pair of scores for the two models, added into a per-game matrix keyed by
    the alphabetically sorted pair of short model names; afterwards a combined "ALL" pool
    is built from the per-game matrices under one of three normalisation schemes. */
module ScoreMatrix {
  import opened Wrappers
  import opened Text
  import opened Ordering
  import opened Sums
  import opened TournamentData

  const EloSlope: real := 400.0
  const EloBase: real := 1200.0
  /** `np.log(10)` */
  const Ln10: real := 2.302585092994046

  // ---------------------------------------------------------------- names

  /** `model.rpartition("/")[2]`: the model name without any provider prefix. */
  function UniqueModelName(model: string): (r: string)
    ensures '/' !in r
    ensures '/' !in model ==> r == model
    ensures '/' in model ==> |r| < |model| && model[|model| - |r| - 1] == '/' && r == model[|model| - |r|..]
  {
    AfterLastChar(model, '/');
    AfterLast(model, "/")
  }

  type Pair = (string, string)

  /** `tuple(sorted([p1, p2]))` */
  function SortedPair(p1: string, p2: string): (r: Pair)
    ensures StrLe(r.0, r.1)
    ensures (r.0 == p1 && r.1 == p2) || (r.0 == p2 && r.1 == p1)
  {
    StrLtTotal(p1, p2);
    if StrLe(p1, p2) then (p1, p2) else (p2, p1)
  }

  // ---------------------------------------------------------------- round scores

  const Float: string := "float"
  const Tertiary: string := "tertiary"
  const TertiaryPValue: string := "tertiary_p_value"

  /** `_get_score`: the scores of the two named players for one round.
      `getScores` and `pValue` stand for `get_scores` and `calculate_p_value`, which are
      not part of this model. */
  function GetScore(
    policy: string, stats: RoundStats, names: (string, string), game: string,
    getScores: RoundStats -> map<string, real>, pValue: map<string, real> -> real): (r: Result<(real, real)>)
    // float: a lone positive tie entry is a draw; otherwise the two players' own scores,
    // and a missing entry is a KeyError naming the first key looked up that is absent
    ensures policy == Float && |stats.scores| == 1 && Tie !in stats.scores ==> r == Fail(KeyError(Tie))
    ensures policy == Float && |stats.scores| == 1 && Tie in stats.scores && stats.scores[Tie] > 0.0 ==>
      r == Ok((0.5, 0.5))
    ensures policy == Float && !(|stats.scores| == 1 && (Tie !in stats.scores || stats.scores[Tie] > 0.0)) ==>
      (r.Ok? <==> names.0 in getScores(stats) && names.1 in getScores(stats))
      && (r.Ok? ==> r.value == (getScores(stats)[names.0], getScores(stats)[names.1]))
      && (names.0 !in getScores(stats) ==> r == Fail(KeyError(names.0)))
      && (names.0 in getScores(stats) && names.1 !in getScores(stats) ==> r == Fail(KeyError(names.1)))
    // tertiary: a tie, a win of either player, or an unknown winner
    ensures policy == Tertiary ==>
      (r == Ok((0.5, 0.5)) <==> stats.winner == Some(Tie))
      && (r == Ok((1.0, 0.0)) <==> stats.winner == Some(names.0) && names.0 != Tie)
      && (r == Ok((0.0, 1.0)) <==> stats.winner == Some(names.1) && names.1 != Tie && names.1 != names.0)
      && (r.Fail? <==> stats.winner !in {Some(Tie), Some(names.0), Some(names.1)})
    // a round record without a winner is a KeyError wherever the winner is consulted
    ensures policy == Tertiary && stats.winner.None? ==> r == Fail(KeyError("winner"))
    ensures policy == TertiaryPValue && ValidSubmits(stats.playerStats) == 1 && stats.winner.None? ==>
      r == Fail(KeyError("winner"))
    // tertiary_p_value: few valid submissions decide without looking at the scores
    ensures policy == TertiaryPValue && ValidSubmits(stats.playerStats) == 0 ==> r == Ok((0.5, 0.5))
    ensures policy == TertiaryPValue && ValidSubmits(stats.playerStats) == 1 && stats.winner.Some? ==>
      r == Ok(if stats.winner.value == "Tie" then (0.5, 0.5)
              else if stats.winner.value == names.0 then (1.0, 0.0) else (0.0, 1.0))
    ensures policy == TertiaryPValue && ValidSubmits(stats.playerStats) >= 2 ==>
      (r.Fail? <==> names.0 !in stats.scores || names.1 !in stats.scores)
    // with two or more valid submissions and both scores present: an insignificant
    // difference is a draw, except in the two games that skip the test; otherwise the
    // strictly larger score wins and equal scores draw
    ensures (policy == TertiaryPValue && ValidSubmits(stats.playerStats) >= 2
             && names.0 in stats.scores && names.1 in stats.scores) ==>
      var s0, s1 := stats.scores[names.0], stats.scores[names.1];
      var insignificant := game !in ["HuskyBench", "RoboCode"] && pValue(stats.scores) > 0.05;
      (insignificant ==> r == Ok((0.5, 0.5)))
      && (!insignificant ==>
            (r == Ok((1.0, 0.0)) <==> s0 > s1)
            && (r == Ok((0.0, 1.0)) <==> s1 > s0)
            && (r == Ok((0.5, 0.5)) <==> s0 == s1))
    // both tertiary policies give one point per round
    ensures policy in {Tertiary, TertiaryPValue} && r.Ok? ==> r.value.0 + r.value.1 == 1.0
    ensures policy !in {Float, Tertiary, TertiaryPValue} ==> r.Fail? && r.error.ValueError?
  {
    if policy == Float then
      var scores := getScores(stats);
      if |stats.scores| == 1 && Tie !in stats.scores then Fail(KeyError(Tie))
      else if |stats.scores| == 1 && stats.scores[Tie] > 0.0 then Ok((0.5, 0.5))
      else if names.0 !in scores then Fail(KeyError(names.0))
      else if names.1 !in scores then Fail(KeyError(names.1))
      else Ok((scores[names.0], scores[names.1]))
    else if policy == Tertiary then
      if stats.winner.None? then Fail(KeyError("winner"))
      else if stats.winner.value == Tie then Ok((0.5, 0.5))
      else if stats.winner.value == names.0 then Ok((1.0, 0.0))
      else if stats.winner.value == names.1 then Ok((0.0, 1.0))
      else Fail(ValueError("Expected winner to be one of ['" + names.0 + "', '" + names.1 + "'], got "
                           + stats.winner.value))
    else if policy == TertiaryPValue then
      var validSubmits := ValidSubmits(stats.playerStats);
      if validSubmits == 0 then Ok((0.5, 0.5))
      else if validSubmits == 1 then
        if stats.winner.None? then Fail(KeyError("winner"))
        else if stats.winner.value == "Tie" then Ok((0.5, 0.5))
        else if stats.winner.value == names.0 then Ok((1.0, 0.0))
        else Ok((0.0, 1.0))
      else if names.0 !in stats.scores || names.1 !in stats.scores then
        Fail(ValueError("Expected " + names.0 + " and " + names.1 + " in scores"))
      else if game !in ["HuskyBench", "RoboCode"] && pValue(stats.scores) > 0.05 then Ok((0.5, 0.5))
      else if stats.scores[names.0] > stats.scores[names.1] then Ok((1.0, 0.0))
      else if stats.scores[names.1] > stats.scores[names.0] then Ok((0.0, 1.0))
      else Ok((0.5, 0.5))
    else Fail(ValueError("Invalid round score type: " + policy))
  }

  /** For HuskyBench and RoboCode the significance test is never consulted. */
  lemma PValueIgnoredForUntestedGames(
    stats: RoundStats, names: (string, string), game: string,
    getScores: RoundStats -> map<string, real>, pv1: map<string, real> -> real, pv2: map<string, real> -> real)
    requires game in {"HuskyBench", "RoboCode"}
    ensures GetScore(TertiaryPValue, stats, names, game, getScores, pv1)
         == GetScore(TertiaryPValue, stats, names, game, getScores, pv2)
  {
  }

  // ---------------------------------------------------------------- Bradley-Terry

  /** `bt_to_elo`: Elo rating from a Bradley-Terry strength; its inverse is
      `(r - 1200) * ln 10 / 400`, and it is strictly increasing. */
  function BtToElo(strength: real): (r: real)
    ensures (r - EloBase) * Ln10 / EloSlope == strength
    ensures strength == 0.0 ==> r == EloBase
    ensures strength > 0.0 <==> r > EloBase
  {
    EloBase + (EloSlope / Ln10) * strength
  }

  lemma BtToEloMonotone(s: real, t: real)
    requires s < t
    ensures BtToElo(s) < BtToElo(t)
  {
  }

  /** The player indexing of `_fit_game`: `players` is the sorted set of names occurring
      in any matchup, and matchup `k` becomes the index pair of its two players with its
      two win totals alongside. */
  method IndexPlayers(matchups: seq<(Pair, (real, real))>)
    returns (players: seq<string>, pairs: seq<(nat, nat)>, wins: seq<(real, real)>)
    ensures StrictlySorted(players)
    ensures forall p :: p in players <==> exists k | 0 <= k < |matchups| :: p == matchups[k].0.0 || p == matchups[k].0.1
    ensures |pairs| == |matchups| && |wins| == |matchups|
    ensures forall k | 0 <= k < |matchups| ::
      pairs[k].0 < |players| && pairs[k].1 < |players|
      && players[pairs[k].0] == matchups[k].0.0 && players[pairs[k].1] == matchups[k].0.1
      && wins[k] == matchups[k].1
  {
    var names := MatchupNames(matchups);
    players := SortedOfSet(names);
    pairs, wins := [], [];
    var k := 0;
    while k < |matchups|
      invariant IndexedUpTo(players, matchups, pairs, wins, k)
    {
      var (p1, p2) := matchups[k].0;
      assert p1 == matchups[k].0.0 && p2 == matchups[k].0.1;
      var i := IndexOf(players, p1);
      var j := IndexOf(players, p2);
      IndexedStep(players, matchups, pairs, wins, k, (i, j));
      pairs := pairs + [(i, j)];
      wins := wins + [matchups[k].1];
      k := k + 1;
    }
  }

  /** The first `k` matchups are indexed: `pairs[j]` holds the indices of matchup `j`'s
      players and `wins[j]` its win totals. */
  ghost predicate IndexedUpTo(players: seq<string>, matchups: seq<(Pair, (real, real))>,
                              pairs: seq<(nat, nat)>, wins: seq<(real, real)>, k: nat)
  {
    && k <= |matchups| && |pairs| == k && |wins| == k
    && forall j | 0 <= j < k ::
         pairs[j].0 < |players| && pairs[j].1 < |players|
         && players[pairs[j].0] == matchups[j].0.0 && players[pairs[j].1] == matchups[j].0.1
         && wins[j] == matchups[j].1
  }

  lemma IndexedStep(players: seq<string>, matchups: seq<(Pair, (real, real))>,
                    pairs: seq<(nat, nat)>, wins: seq<(real, real)>, k: nat, ij: (nat, nat))
    requires IndexedUpTo(players, matchups, pairs, wins, k) && k < |matchups|
    requires ij.0 < |players| && ij.1 < |players|
    requires players[ij.0] == matchups[k].0.0 && players[ij.1] == matchups[k].0.1
    ensures IndexedUpTo(players, matchups, pairs + [ij], wins + [matchups[k].1], k + 1)
  {
  }

  /** The names occurring in any matchup. */
  function MatchupNames(matchups: seq<(Pair, (real, real))>): (r: set<string>)
    ensures forall p :: p in r <==> exists k | 0 <= k < |matchups| :: p == matchups[k].0.0 || p == matchups[k].0.1
  {
    if matchups == [] then {}
    else
      var init := matchups[..|matchups| - 1];
      var last := matchups[|matchups| - 1];
      assert forall k | 0 <= k < |init| :: init[k] == matchups[k];
      MatchupNames(init) + {last.0.0, last.0.1}
  }

  /** `player_to_idx[p]` */
  method IndexOf(players: seq<string>, p: string) returns (i: nat)
    requires p in players
    ensures i < |players| && players[i] == p
  {
    i := 0;
    while players[i] != p
      invariant i < |players|
      invariant p in players[i..]
      decreases |players| - i
    {
      i := i + 1;
    }
  }

  // ---------------------------------------------------------------- the win matrix

  /** `[wins of the pair's first model, wins of its second model]` */
  datatype Cell = Cell(w1: real, w2: real)

  const Zero: Cell := Cell(0.0, 0.0)

  function Plus(a: Cell, b: Cell): Cell { Cell(a.w1 + b.w1, a.w2 + b.w2) }

  /** game name -> sorted model pair -> cell */
  type Matchups = map<Pair, Cell>
  type WinMatrix = map<string, Matchups>

  /** The cell as the nested defaultdicts show it: zero until first written. */
  function CellAt(w: WinMatrix, g: string, p: Pair): Cell {
    if g in w && p in w[g] then w[g][p] else Zero
  }

  /** `win_matrix[g][p][0] += d.w1; win_matrix[g][p][1] += d.w2`: the cell is created at
      zero if needed, and no other cell changes. */
  function AddCell(w: WinMatrix, g: string, p: Pair, d: Cell): (r: WinMatrix)
    ensures r.Keys == w.Keys + {g}
    ensures r[g].Keys == (if g in w then w[g].Keys else {}) + {p}
    ensures r[g][p] == Plus(CellAt(w, g, p), d)
    ensures forall h | h in w && h != g :: r[h] == w[h]
    ensures forall q | q in r[g] && q != p :: r[g][q] == w[g][q]
  {
    var m := if g in w then w[g] else map[];
    w[g := m[p := Plus(CellAt(w, g, p), d)]]
  }

  /** Cell by cell, an addition changes only its own cell. */
  lemma CellAtAdd(w: WinMatrix, g: string, p: Pair, d: Cell, h: string, q: Pair)
    ensures CellAt(AddCell(w, g, p, d), h, q)
         == if (h, q) == (g, p) then Plus(CellAt(w, h, q), d) else CellAt(w, h, q)
  {
  }

  /** Two matrices with the same games, the same pairs per game and the same cells are equal. */
  lemma MatrixEq(x: WinMatrix, y: WinMatrix)
    requires x.Keys == y.Keys
    requires forall h | h in x :: x[h].Keys == y[h].Keys
    requires forall h, q | h in x && q in x[h] :: CellAt(x, h, q) == CellAt(y, h, q)
    ensures x == y
  {
    forall h | h in x ensures x[h] == y[h] {
      forall q | q in x[h] ensures x[h][q] == y[h][q] {
        assert CellAt(x, h, q) == CellAt(y, h, q);
      }
    }
  }

  /** Two additions commute. */
  lemma AddCellCommute(w: WinMatrix, g1: string, p1: Pair, d1: Cell, g2: string, p2: Pair, d2: Cell)
    ensures AddCell(AddCell(w, g1, p1, d1), g2, p2, d2) == AddCell(AddCell(w, g2, p2, d2), g1, p1, d1)
  {
    AddCellCommuteKeys(w, g1, p1, d1, g2, p2, d2);
    AddCellCommuteCells(w, g1, p1, d1, g2, p2, d2);
    MatrixEq(AddCell(AddCell(w, g1, p1, d1), g2, p2, d2), AddCell(AddCell(w, g2, p2, d2), g1, p1, d1));
  }

  /** The pairs recorded for game `h` (none when the game has no entry). */
  function PairsAt(w: WinMatrix, h: string): set<Pair> {
    if h in w then w[h].Keys else {}
  }

  lemma PairsAtAdd(w: WinMatrix, g: string, p: Pair, d: Cell, h: string)
    ensures PairsAt(AddCell(w, g, p, d), h) == if h == g then PairsAt(w, h) + {p} else PairsAt(w, h)
  {
  }

  lemma AddCellCommuteKeys(w: WinMatrix, g1: string, p1: Pair, d1: Cell, g2: string, p2: Pair, d2: Cell)
    ensures var a, b := AddCell(AddCell(w, g1, p1, d1), g2, p2, d2), AddCell(AddCell(w, g2, p2, d2), g1, p1, d1);
      a.Keys == b.Keys && forall h | h in a :: a[h].Keys == b[h].Keys
  {
    var a := AddCell(AddCell(w, g1, p1, d1), g2, p2, d2);
    var b := AddCell(AddCell(w, g2, p2, d2), g1, p1, d1);
    forall h | h in a ensures a[h].Keys == b[h].Keys {
      PairsAtCommute(w, g1, p1, d1, g2, p2, d2, h);
    }
  }

  lemma PairsAtCommute(w: WinMatrix, g1: string, p1: Pair, d1: Cell, g2: string, p2: Pair, d2: Cell, h: string)
    ensures PairsAt(AddCell(AddCell(w, g1, p1, d1), g2, p2, d2), h)
         == PairsAt(AddCell(AddCell(w, g2, p2, d2), g1, p1, d1), h)
  {
    var a1 := AddCell(w, g1, p1, d1);
    var b1 := AddCell(w, g2, p2, d2);
    PairsAtAdd(w, g1, p1, d1, h);
    PairsAtAdd(w, g2, p2, d2, h);
    PairsAtAdd(a1, g2, p2, d2, h);
    PairsAtAdd(b1, g1, p1, d1, h);
  }

  lemma AddCellCommuteCells(w: WinMatrix, g1: string, p1: Pair, d1: Cell, g2: string, p2: Pair, d2: Cell)
    ensures var a, b := AddCell(AddCell(w, g1, p1, d1), g2, p2, d2), AddCell(AddCell(w, g2, p2, d2), g1, p1, d1);
      forall h, q :: CellAt(a, h, q) == CellAt(b, h, q)
  {
    var a1 := AddCell(w, g1, p1, d1);
    var b1 := AddCell(w, g2, p2, d2);
    var a := AddCell(a1, g2, p2, d2);
    var b := AddCell(b1, g1, p1, d1);
    forall h, q ensures CellAt(a, h, q) == CellAt(b, h, q) {
      CellAtAdd(w, g1, p1, d1, h, q);
      CellAtAdd(w, g2, p2, d2, h, q);
      CellAtAdd(a1, g2, p2, d2, h, q);
      CellAtAdd(b1, g1, p1, d1, h, q);
    }
  }

  /** Adding twice to one cell is adding the sum. */
  lemma AddCellTwice(w: WinMatrix, g: string, p: Pair, d1: Cell, d2: Cell)
    ensures AddCell(AddCell(w, g, p, d1), g, p, d2) == AddCell(w, g, p, Plus(d1, d2))
  {
    var a := AddCell(AddCell(w, g, p, d1), g, p, d2);
    var b := AddCell(w, g, p, Plus(d1, d2));
    forall h, q | h in a && q in a[h] ensures CellAt(a, h, q) == CellAt(b, h, q) {
      CellAtAdd(w, g, p, d1, h, q);
      CellAtAdd(AddCell(w, g, p, d1), g, p, d2, h, q);
      CellAtAdd(w, g, p, Plus(d1, d2), h, q);
    }
    MatrixEq(a, b);
  }

  // ---------------------------------------------------------------- one tournament

  /** The fields of `metadata.json` this script reads; None marks a missing key. */
  datatype Metadata = Metadata(
    players: Option<seq<PlayerConfig>>,
    gameName: Option<string>,
    roundStats: Option<seq<(string, RoundStats)>>)

  /** The score policy and the two helpers it may consult. */
  datatype Scoring = Scoring(
    policy: string,
    getScores: RoundStats -> map<string, real>,
    pValue: map<string, real> -> real)

  /** The cell increment of one round: slot 0 receives the score of the model whose short
      name sorts first. */
  function Oriented(u0: string, u1: string, s: (real, real)): (r: Cell)
    ensures StrLe(u0, u1) ==> r == Cell(s.0, s.1)
    ensures !StrLe(u0, u1) ==> r == Cell(s.1, s.0)
  {
    var pair := SortedPair(u0, u1);
    if u0 == pair.0 then Cell(s.0, s.1)
    else
      assert pair == (u1, u0);
      StrLtAsymmetric(u0, u1);
      Cell(s.1, s.0)
  }

  /** Number of rounds other than the initial round "0". */
  function RatedRounds(rounds: seq<(string, RoundStats)>): nat {
    if rounds == [] then 0
    else RatedRounds(rounds[..|rounds| - 1]) + (if rounds[|rounds| - 1].0 == "0" then 0 else 1)
  }

  /** The increments of the rounds in order, up to the first round whose score raises. */
  function RoundDeltas(
    rounds: seq<(string, RoundStats)>, sc: Scoring, names: (string, string), game: string,
    u0: string, u1: string): (r: (seq<Cell>, Option<Error>))
    ensures |r.0| <= RatedRounds(rounds)
    ensures r.1.None? ==> |r.0| == RatedRounds(rounds)
    ensures sc.policy in {Tertiary, TertiaryPValue} ==> forall d | d in r.0 :: d.w1 + d.w2 == 1.0
  {
    if rounds == [] then ([], None)
    else
      var prev := RoundDeltas(rounds[..|rounds| - 1], sc, names, game, u0, u1);
      var (idx, stats) := rounds[|rounds| - 1];
      if prev.1.Some? || idx == "0" then prev
      else match GetScore(sc.policy, stats, names, game, sc.getScores, sc.pValue)
        case Fail(e) => (prev.0, Some(e))
        case Ok(s) => (prev.0 + [Oriented(u0, u1, s)], None)
  }

  /** Where a tournament's rounds go and what they add, in order. */
  datatype Effect = Effect(game: string, pair: Pair, deltas: seq<Cell>)

  /** `_process_tournament` on one metadata file (None: not valid JSON): the increments it
      makes, and the exception it raises, if any. */
  function TournamentEffect(sc: Scoring, file: Option<Metadata>): (r: (Option<Effect>, Option<Error>))
    ensures file.None? ==> r == (None, Some(ValueError("invalid JSON")))
    ensures file.Some? && (file.value.players.None? || file.value.gameName.None?) ==> r == (None, None)
    ensures file.Some? && file.value.players.Some? && |file.value.players.value| != 2 ==> r.0.None? && r.1.None?
    ensures r.0.Some? ==> file.Some? && file.value.gameName == Some(r.0.value.game)
  {
    match file
    case None => (None, Some(ValueError("invalid JSON")))
    case Some(md) =>
      if md.players.None? || md.gameName.None? then (None, None)
      else
        var players := md.players.value;
        if |players| != 2 then (None, None)
        else if players[0].name.None? || players[1].name.None? then (None, Some(KeyError("name")))
        else if players[0].modelName.None? || players[1].modelName.None? then (None, Some(KeyError("model_name")))
        else if md.roundStats.None? then (None, Some(KeyError("round_stats")))
        else
          var names := (players[0].name.value, players[1].name.value);
          var u0 := UniqueModelName(StripChar(players[0].modelName.value, '@'));
          var u1 := UniqueModelName(StripChar(players[1].modelName.value, '@'));
          var ds := RoundDeltas(md.roundStats.value, sc, names, md.gameName.value, u0, u1);
          (Some(Effect(md.gameName.value, SortedPair(u0, u1), ds.0)), ds.1)
  }

  function ApplyDeltas(w: WinMatrix, g: string, p: Pair, ds: seq<Cell>): WinMatrix {
    if ds == [] then w else AddCell(ApplyDeltas(w, g, p, ds[..|ds| - 1]), g, p, ds[|ds| - 1])
  }

  function SumCells(ds: seq<Cell>): Cell {
    if ds == [] then Zero else Plus(SumCells(ds[..|ds| - 1]), ds[|ds| - 1])
  }

  /** The increments of a tournament land in one cell, which grows by their sum. */
  lemma {:induction false} ApplyDeltasOneCell(w: WinMatrix, g: string, p: Pair, ds: seq<Cell>)
    requires ds != []
    ensures ApplyDeltas(w, g, p, ds) == AddCell(w, g, p, SumCells(ds))
  {
    var init := ds[..|ds| - 1];
    if init == [] {
      assert SumCells(ds) == Plus(Zero, ds[0]);
      assert Plus(Zero, ds[0]) == ds[0];
    } else {
      ApplyDeltasOneCell(w, g, p, init);
      AddCellTwice(w, g, p, SumCells(init), ds[|ds| - 1]);
    }
  }

  function ApplyEffect(w: WinMatrix, e: Option<Effect>): WinMatrix {
    if e.None? then w else ApplyDeltas(w, e.value.game, e.value.pair, e.value.deltas)
  }

  lemma EffectsCommute(w: WinMatrix, e1: Option<Effect>, e2: Option<Effect>)
    ensures ApplyEffect(ApplyEffect(w, e1), e2) == ApplyEffect(ApplyEffect(w, e2), e1)
  {
    if e1.Some? && e2.Some? && e1.value.deltas != [] && e2.value.deltas != [] {
      var (g1, p1, d1) := (e1.value.game, e1.value.pair, e1.value.deltas);
      var (g2, p2, d2) := (e2.value.game, e2.value.pair, e2.value.deltas);
      ApplyDeltasOneCell(w, g1, p1, d1);
      ApplyDeltasOneCell(w, g2, p2, d2);
      ApplyDeltasOneCell(ApplyEffect(w, e1), g2, p2, d2);
      ApplyDeltasOneCell(ApplyEffect(w, e2), g1, p1, d1);
      AddCellCommute(w, g1, p1, SumCells(d1), g2, p2, SumCells(d2));
    }
  }

  /** Under either tertiary policy every rated round adds exactly one point to its pair. */
  lemma {:induction false} TertiaryAddsOnePerRound(w: WinMatrix, g: string, p: Pair, ds: seq<Cell>)
    requires forall d | d in ds :: d.w1 + d.w2 == 1.0
    ensures CellAt(ApplyDeltas(w, g, p, ds), g, p).w1 + CellAt(ApplyDeltas(w, g, p, ds), g, p).w2
         == CellAt(w, g, p).w1 + CellAt(w, g, p).w2 + |ds| as real
  {
    if ds != [] {
      assert forall d | d in ds[..|ds| - 1] :: d in ds;
      TertiaryAddsOnePerRound(w, g, p, ds[..|ds| - 1]);
      assert ds[|ds| - 1] in ds;
    }
  }

  // ---------------------------------------------------------------- many tournaments

  function FoldEffects(w: WinMatrix, es: seq<Option<Effect>>): WinMatrix {
    if es == [] then w else ApplyEffect(FoldEffects(w, es[..|es| - 1]), es[|es| - 1])
  }

  lemma {:induction false} FoldMoveToEnd(w: WinMatrix, s: seq<Option<Effect>>, x: Option<Effect>, t: seq<Option<Effect>>)
    ensures FoldEffects(w, s + [x] + t) == FoldEffects(w, s + t + [x])
    decreases |t|
  {
    if t == [] {
      assert s + [x] + t == s + t + [x];
    } else {
      var t' := t[..|t| - 1];
      var y := t[|t| - 1];
      assert s + [x] + t == (s + [x] + t') + [y];
      assert (s + [x] + t)[..|s + [x] + t| - 1] == s + [x] + t';
      FoldMoveToEnd(w, s, x, t');
      var a := s + t' + [x];
      assert (a + [y])[..|a + [y]| - 1] == a;
      assert a[..|a| - 1] == s + t';
      var b := s + t' + [y];
      assert (s + t + [x])[..|s + t + [x]| - 1] == b && b == s + t;
      assert b[..|b| - 1] == s + t';
      EffectsCommute(FoldEffects(w, s + t'), x, y);
    }
  }

  lemma MultisetCancel<T>(a: seq<T>, b1: seq<T>, x: T, b2: seq<T>)
    requires multiset(a + [x]) == multiset(b1 + [x] + b2)
    ensures multiset(a) == multiset(b1 + b2)
  {
    assert multiset(a + [x]) == multiset(a) + multiset{x};
    assert multiset(b1 + [x] + b2) == multiset(b1) + multiset{x} + multiset(b2);
    assert multiset(b1 + b2) == multiset(b1) + multiset(b2);
    var m, n := multiset(a), multiset(b1 + b2);
    assert m + multiset{x} == n + multiset{x};
    forall y ensures m[y] == n[y] {
      assert (m + multiset{x})[y] == (n + multiset{x})[y];
    }
  }

  /** The matrix does not depend on the order in which the tournaments are processed. */
  lemma {:induction false} FoldOrderIndependent(w: WinMatrix, a: seq<Option<Effect>>, b: seq<Option<Effect>>)
    requires multiset(a) == multiset(b)
    ensures FoldEffects(w, a) == FoldEffects(w, b)
    decreases |a|
  {
    if a != [] {
      var x := a[|a| - 1];
      var a' := a[..|a| - 1];
      assert a == a' + [x];
      assert x in multiset(b);
      var k :| 0 <= k < |b| && b[k] == x;
      var b1, b2 := b[..k], b[k + 1..];
      assert b == b1 + [x] + b2;
      FoldMoveToEnd(w, b1, x, b2);
      MultisetCancel(a', b1, x, b2);
      FoldOrderIndependent(w, a', b1 + b2);
      assert (b1 + b2 + [x])[..|b1 + b2|] == b1 + b2;
    } else {
      assert b == [];
    }
  }

  // ---------------------------------------------------------------- the pooled "ALL" matrix

  const NoNormalization: string := "none"
  const ByGameModelPair: string := "by_game_model_pair"
  const ByGame: string := "by_game"

  function PairTotal(c: Cell): real { c.w1 + c.w2 }

  /** What one game's cell adds to the pooled matrix under `scheme`, given the total of
      the game's cells (consulted by "by_game" only); None where nothing is added. */
  function Normalized(scheme: string, c: Cell, gameTotal: real): (r: Option<Cell>)
    ensures scheme == NoNormalization ==> r == Some(c)
    ensures scheme == ByGameModelPair ==> (r.Some? <==> PairTotal(c) > 0.0)
    ensures scheme == ByGameModelPair && r.Some? ==> PairTotal(r.value) == 1.0
    ensures scheme == ByGame ==> (r.Some? <==> gameTotal > 0.0)
    ensures scheme == ByGame && r.Some? ==> PairTotal(r.value) * gameTotal == PairTotal(c)
    ensures scheme !in {NoNormalization, ByGameModelPair, ByGame} ==> r.None?
  {
    if scheme == NoNormalization then Some(c)
    else if scheme == ByGameModelPair then
      var t := PairTotal(c);
      if t > 0.0 then
        assert c.w1 / t + c.w2 / t == (c.w1 + c.w2) / t == t / t == 1.0;
        Some(Cell(c.w1 / t, c.w2 / t))
      else None
    else if scheme == ByGame then
      if gameTotal > 0.0 then
        assert (c.w1 / gameTotal + c.w2 / gameTotal) * gameTotal == c.w1 + c.w2;
        Some(Cell(c.w1 / gameTotal, c.w2 / gameTotal))
      else None
    else None
  }

  /** A cell of the matrix: a game and a model pair. */
  type Site = (string, Pair)

  ghost function Sites(w: WinMatrix): set<Site> {
    set g, p | g in w && p in w[g] :: (g, p)
  }

  ghost function PairTotalIn(m: Matchups): Pair -> real {
    p => if p in m then PairTotal(m[p]) else 0.0
  }

  /** The total of a game's cells over some of its pairs. */
  ghost function GameTotalOver(m: Matchups, ps: set<Pair>): real {
    SumSet(ps, PairTotalIn(m))
  }

  ghost function GameTotal(m: Matchups): real { GameTotalOver(m, m.Keys) }

  ghost function Contribution(w: WinMatrix, scheme: string, s: Site): Option<Cell> {
    if s.0 in w && s.1 in w[s.0] then Normalized(scheme, w[s.0][s.1], GameTotal(w[s.0])) else None
  }

  /** What each site adds to the pool under `scheme`. */
  ghost function ContributionOf(w: WinMatrix, scheme: string): Site -> Option<Cell> {
    s => Contribution(w, scheme, s)
  }

  ghost function W1Of(C: Site -> Option<Cell>): Site -> real {
    s => if C(s).Some? then C(s).value.w1 else 0.0
  }

  ghost function W2Of(C: Site -> Option<Cell>): Site -> real {
    s => if C(s).Some? then C(s).value.w2 else 0.0
  }

  /** The sites among `S` that add something to pair `p`. */
  ghost function Contributing(C: Site -> Option<Cell>, S: set<Site>, p: Pair): set<Site> {
    set s | s in S && s.1 == p && C(s).Some?
  }

  ghost function PooledPairs(C: Site -> Option<Cell>, S: set<Site>): set<Pair> {
    set s | s in S && C(s).Some? :: s.1
  }

  /** The pool of the contributions `C` of the sites in `S`: per pair, the sum of what its
      sites add. */
  ghost function PooledOver(C: Site -> Option<Cell>, S: set<Site>): map<Pair, Cell> {
    map p | p in PooledPairs(C, S) ::
      Cell(SumSet(Contributing(C, S, p), W1Of(C)), SumSet(Contributing(C, S, p), W2Of(C)))
  }

  /** The "ALL" matrix: for each pair, the sum over the games of what the scheme makes of the
      pair's cell in that game. */
  ghost function Pooled(w: WinMatrix, scheme: string): (r: map<Pair, Cell>)
    ensures scheme == NoNormalization ==> forall p :: p in r <==> exists g :: g in w && p in w[g]
    ensures scheme == ByGameModelPair ==>
      forall p :: p in r <==> exists g :: g in w && p in w[g] && PairTotal(w[g][p]) > 0.0
    ensures scheme == ByGame ==>
      forall p :: p in r <==> exists g :: g in w && p in w[g] && GameTotal(w[g]) > 0.0
    ensures scheme !in {NoNormalization, ByGameModelPair, ByGame} ==> r == map[]
  {
    var C := ContributionOf(w, scheme);
    var r := PooledOver(C, Sites(w));
    forall p ensures p in r <==> exists g :: g in w && p in w[g] && Contribution(w, scheme, (g, p)).Some? {
      if p in r {
        var s :| s in Sites(w) && C(s).Some? && s.1 == p;
        assert s.0 in w && p in w[s.0];
      }
      if exists g :: g in w && p in w[g] && Contribution(w, scheme, (g, p)).Some? {
        var g :| g in w && p in w[g] && Contribution(w, scheme, (g, p)).Some?;
        assert (g, p) in Sites(w);
        assert C((g, p)).Some?;
      }
    }
    r
  }

  /** Adds `d` to pair `p` of a pooled matrix, creating the entry at zero first. */
  function AddTo(c: map<Pair, Cell>, p: Pair, d: Cell): (r: map<Pair, Cell>)
    ensures r.Keys == c.Keys + {p}
    ensures r[p] == Plus(if p in c then c[p] else Zero, d)
    ensures forall q | q in c && q != p :: r[q] == c[q]
  {
    c[p := Plus(if p in c then c[p] else Zero, d)]
  }

  /** The site taken into the pool adds its contribution to its own pair. */
  lemma PooledAtStepHit(C: Site -> Option<Cell>, S: set<Site>, s: Site)
    requires s !in S && C(s).Some?
    ensures s.1 in PooledOver(C, S + {s})
    ensures PooledOver(C, S + {s})[s.1]
      == Plus(if s.1 in PooledOver(C, S) then PooledOver(C, S)[s.1] else Zero, C(s).value)
  {
    var q := s.1;
    var T := Contributing(C, S, q);
    assert Contributing(C, S + {s}, q) == T + {s};
    SumSetAdd(T, W1Of(C), s);
    SumSetAdd(T, W2Of(C), s);
    var before := Cell(SumSet(T, W1Of(C)), SumSet(T, W2Of(C)));
    if q !in PooledPairs(C, S) {
      assert T == {};
      assert before == Zero;
    } else {
      assert PooledOver(C, S)[q] == before;
    }
    assert s in S + {s} && C(s).Some? && s.1 == q;
    assert q in PooledPairs(C, S + {s});
    var T' := Contributing(C, S + {s}, q);
    assert PooledOver(C, S + {s})[q] == Cell(SumSet(T', W1Of(C)), SumSet(T', W2Of(C)));
    assert W1Of(C)(s) == C(s).value.w1 && W2Of(C)(s) == C(s).value.w2;
    assert SumSet(T', W1Of(C)) == before.w1 + C(s).value.w1;
    assert SumSet(T', W2Of(C)) == before.w2 + C(s).value.w2;
    assert (if q in PooledOver(C, S) then PooledOver(C, S)[q] else Zero) == before;
    PlusOf(before, C(s).value, SumSet(T', W1Of(C)), SumSet(T', W2Of(C)));
  }

  lemma PlusOf(a: Cell, d: Cell, x: real, y: real)
    requires x == a.w1 + d.w1 && y == a.w2 + d.w2
    ensures Cell(x, y) == Plus(a, d)
  {
  }

  /** Every other pair of the pool is left as it was. */
  lemma PooledAtStepMiss(C: Site -> Option<Cell>, S: set<Site>, s: Site, q: Pair)
    requires s !in S && q in PooledOver(C, S + {s})
    requires !(C(s).Some? && q == s.1)
    ensures q in PooledOver(C, S) && PooledOver(C, S + {s})[q] == PooledOver(C, S)[q]
  {
    assert Contributing(C, S + {s}, q) == Contributing(C, S, q);
    var t :| t in S + {s} && C(t).Some? && t.1 == q;
    assert t in S;
  }

  lemma PooledPairsStep(C: Site -> Option<Cell>, S: set<Site>, s: Site)
    ensures PooledPairs(C, S + {s}) == if C(s).Some? then PooledPairs(C, S) + {s.1} else PooledPairs(C, S)
  {
  }

  /** Taking one more site into the pool adds its contribution to its pair and nothing else. */
  lemma PooledStep(C: Site -> Option<Cell>, S: set<Site>, s: Site)
    requires s !in S
    ensures C(s).None? ==> PooledOver(C, S + {s}) == PooledOver(C, S)
    ensures C(s).Some? ==> PooledOver(C, S + {s}) == AddTo(PooledOver(C, S), s.1, C(s).value)
  {
    if C(s).Some? {
      PooledStepSome(C, S, s);
    } else {
      PooledStepNone(C, S, s);
    }
  }

  lemma PooledStepNone(C: Site -> Option<Cell>, S: set<Site>, s: Site)
    requires s !in S && C(s).None?
    ensures PooledOver(C, S + {s}) == PooledOver(C, S)
  {
    PooledPairsStep(C, S, s);
    PooledAllMiss(C, S, s);
  }

  lemma PooledAllMiss(C: Site -> Option<Cell>, S: set<Site>, s: Site)
    requires s !in S && C(s).None?
    ensures forall q | q in PooledOver(C, S + {s}) :: PooledOver(C, S + {s})[q] == PooledOver(C, S)[q]
  {
    forall q | q in PooledOver(C, S + {s}) ensures PooledOver(C, S + {s})[q] == PooledOver(C, S)[q] {
      PooledAtStepMiss(C, S, s, q);
    }
  }

  lemma PooledStepSome(C: Site -> Option<Cell>, S: set<Site>, s: Site)
    requires s !in S && C(s).Some?
    ensures PooledOver(C, S + {s}) == AddTo(PooledOver(C, S), s.1, C(s).value)
  {
    var before := PooledOver(C, S);
    var after := PooledOver(C, S + {s});
    var expected := AddTo(before, s.1, C(s).value);
    PooledPairsStep(C, S, s);
    PooledAtStepHit(C, S, s);
    forall q | q in after ensures after[q] == expected[q] {
      if q != s.1 {
        PooledAtStepMiss(C, S, s, q);
      }
    }
    assert after == expected;
  }

  /** The games in which pair `p` has a non-zero cell. */
  ghost function GamesPlayed(w: WinMatrix, p: Pair): set<string> {
    set g | g in w && p in w[g] && PairTotal(w[g][p]) > 0.0
  }

  lemma {:induction false} SitesOfGamesCard(G: set<string>, p: Pair)
    ensures |(set g | g in G :: (g, p))| == |G|
    decreases G
  {
    if G != {} {
      var g :| g in G;
      SitesOfGamesCard(G - {g}, p);
      assert (set h | h in G :: (h, p)) == (set h | h in G - {g} :: (h, p)) + {(g, p)};
    }
  }

  /** A pooled pair whose every contribution has total one has the number of its
      contributing sites as total. */
  lemma PooledUnitTotals(C: Site -> Option<Cell>, S: set<Site>, p: Pair)
    requires p in PooledOver(C, S)
    requires forall s | s in Contributing(C, S, p) :: PairTotal(C(s).value) == 1.0
    ensures PairTotal(PooledOver(C, S)[p]) == |Contributing(C, S, p)| as real
  {
    var T := Contributing(C, S, p);
    var f, g := W1Of(C), W2Of(C);
    var h: Site -> real := s => f(s) + g(s);
    SumSetPlus(T, f, g, h);
    SumSetCount(T, T, h);
  }

  lemma ContributingPairSites(w: WinMatrix, p: Pair)
    ensures Contributing(ContributionOf(w, ByGameModelPair), Sites(w), p)
         == set x | x in GamesPlayed(w, p) :: (x, p)
  {
    var C := ContributionOf(w, ByGameModelPair);
    var T := Contributing(C, Sites(w), p);
    var G := GamesPlayed(w, p);
    forall s | s in T ensures s in (set x | x in G :: (x, p)) {
      assert s.0 in G;
    }
    forall x | x in G ensures (x, p) in T {
      assert (x, p) in Sites(w);
    }
  }

  /** Under "by_game_model_pair" each pooled pair's two entries add up to the number of games
      in which the pair has a non-zero cell. */
  lemma PairNormalizedCountsGames(w: WinMatrix, p: Pair)
    requires p in Pooled(w, ByGameModelPair)
    ensures PairTotal(Pooled(w, ByGameModelPair)[p]) == |GamesPlayed(w, p)| as real
  {
    var C := ContributionOf(w, ByGameModelPair);
    forall s | s in Contributing(C, Sites(w), p) ensures PairTotal(C(s).value) == 1.0 {
      assert C(s) == Normalized(ByGameModelPair, w[s.0][s.1], GameTotal(w[s.0]));
    }
    PooledUnitTotals(C, Sites(w), p);
    ContributingPairSites(w, p);
    SitesOfGamesCard(GamesPlayed(w, p), p);
  }

  /** The two entries a site adds to the pool together. */
  ghost function Share(w: WinMatrix, scheme: string, s: Site): real {
    var c := Contribution(w, scheme, s);
    if c.Some? then PairTotal(c.value) else 0.0
  }

  /** What the pairs of game `g` add to the pool, pair by pair. */
  ghost function SharesOf(w: WinMatrix, scheme: string, g: string): Pair -> real {
    p => Share(w, scheme, (g, p))
  }

  /** Under "by_game" the contributions of a game whose total is positive add up to one. */
  lemma GameNormalizedSumsToOne(w: WinMatrix, g: string)
    requires g in w && GameTotal(w[g]) > 0.0
    ensures SumSet(w[g].Keys, SharesOf(w, ByGame, g)) == 1.0
  {
    var m := w[g];
    SharesScaled(w, g);
    ScaledToOne(m.Keys, PairTotalIn(m), GameTotal(m), SharesOf(w, ByGame, g));
  }

  /** Terms scaled by the inverse of their positive sum add up to one. */
  lemma ScaledToOne<K>(s: set<K>, f: K -> real, t: real, g: K -> real)
    requires t > 0.0 && SumSet(s, f) == t
    requires forall k | k in s :: g(k) == (1.0 / t) * f(k)
    ensures SumSet(s, g) == 1.0
  {
    SumSetScale(s, f, 1.0 / t, g);
    InverseTimes(t);
  }

  /** Under "by_game" every cell's share is its total scaled by the inverse of the game's. */
  lemma SharesScaled(w: WinMatrix, g: string)
    requires g in w && GameTotal(w[g]) > 0.0
    ensures forall p | p in w[g].Keys ::
              SharesOf(w, ByGame, g)(p) == (1.0 / GameTotal(w[g])) * PairTotalIn(w[g])(p)
  {
    forall p | p in w[g].Keys
      ensures SharesOf(w, ByGame, g)(p) == (1.0 / GameTotal(w[g])) * PairTotalIn(w[g])(p)
    {
      ShareByGame(w, g, p);
    }
  }

  /** Under "by_game" a cell adds its share of the game's total. */
  lemma ShareByGame(w: WinMatrix, g: string, p: Pair)
    requires g in w && p in w[g] && GameTotal(w[g]) > 0.0
    ensures Share(w, ByGame, (g, p)) == (1.0 / GameTotal(w[g])) * PairTotal(w[g][p])
  {
    var t := GameTotal(w[g]);
    var c := Normalized(ByGame, w[g][p], t);
    assert Contribution(w, ByGame, (g, p)) == c;
    var x, y := PairTotal(c.value), PairTotal(w[g][p]);
    assert x * t == y;
    assert x == y / t == (1.0 / t) * y;
  }

  lemma InverseTimes(t: real)
    requires t > 0.0
    ensures (1.0 / t) * t == 1.0
  {
  }

  // ---------------------------------------------------------------- the builder

  /** Once a prefix of the rounds has raised, the later rounds are never looked at. */
  lemma {:induction false} RoundDeltasStop(
    rounds: seq<(string, RoundStats)>, k: nat, sc: Scoring, names: (string, string), game: string,
    u0: string, u1: string)
    requires k <= |rounds|
    requires RoundDeltas(rounds[..k], sc, names, game, u0, u1).1.Some?
    ensures RoundDeltas(rounds, sc, names, game, u0, u1) == RoundDeltas(rounds[..k], sc, names, game, u0, u1)
    decreases |rounds| - k
  {
    if k < |rounds| {
      var init := rounds[..|rounds| - 1];
      assert init[..k] == rounds[..k];
      RoundDeltasStop(init, k, sc, names, game, u0, u1);
    } else {
      assert rounds[..k] == rounds;
    }
  }

  /** What one more round does to the increments of rounds that have not raised. */
  lemma RoundDeltasNext(
    rounds: seq<(string, RoundStats)>, i: nat, sc: Scoring, names: (string, string), game: string,
    u0: string, u1: string)
    requires i < |rounds|
    requires RoundDeltas(rounds[..i], sc, names, game, u0, u1).1 == None
    ensures var prev := RoundDeltas(rounds[..i], sc, names, game, u0, u1);
      var score := GetScore(sc.policy, rounds[i].1, names, game, sc.getScores, sc.pValue);
      RoundDeltas(rounds[..i + 1], sc, names, game, u0, u1) ==
        if rounds[i].0 == "0" then prev
        else if score.Fail? then (prev.0, Some(score.error))
        else (prev.0 + [Oriented(u0, u1, score.value)], None)
  {
    assert rounds[..i + 1][..i] == rounds[..i];
  }

  lemma ApplyDeltasSnoc(w: WinMatrix, g: string, p: Pair, ds: seq<Cell>, d: Cell)
    ensures ApplyDeltas(w, g, p, ds + [d]) == AddCell(ApplyDeltas(w, g, p, ds), g, p, d)
  {
    assert (ds + [d])[..|ds|] == ds;
  }

  /** The effects of a sequence of metadata files, in order. */
  function Effects(sc: Scoring, files: seq<Option<Metadata>>): (r: seq<Option<Effect>>)
    ensures |r| == |files|
  {
    if files == [] then []
    else Effects(sc, files[..|files| - 1]) + [TournamentEffect(sc, files[|files| - 1]).0]
  }

  /** The exceptions `build` logs, one per file that raised, in order. */
  function Errors(sc: Scoring, files: seq<Option<Metadata>>): (r: seq<Error>)
    ensures |r| <= |files|
  {
    if files == [] then []
    else
      var e := TournamentEffect(sc, files[|files| - 1]).1;
      Errors(sc, files[..|files| - 1]) + (if e.Some? then [e.value] else [])
  }

  class ScoreMatrixBuilder {
    /** game name -> sorted model pair -> [wins of the first model, wins of the second] */
    var winMatrix: WinMatrix
    /** `all_normalization_scheme` */
    const scheme: string
    /** `round_score_type` with the helpers it consults */
    const scoring: Scoring

    constructor(scheme: string, policy: string, getScores: RoundStats -> map<string, real>,
                pValue: map<string, real> -> real)
      ensures winMatrix == map[]
      ensures this.scheme == scheme && scoring == Scoring(policy, getScores, pValue)
    {
      winMatrix := map[];
      this.scheme := scheme;
      scoring := Scoring(policy, getScores, pValue);
    }

    /** `_process_tournament`: adds the tournament's rounds to its cell, up to the first round
        whose score raises, and reports the exception. */
    method ProcessTournament(file: Option<Metadata>) returns (err: Option<Error>)
      modifies this
      ensures winMatrix == ApplyEffect(old(winMatrix), TournamentEffect(scoring, file).0)
      ensures err == TournamentEffect(scoring, file).1
    {
      if file.None? {
        return Some(ValueError("invalid JSON"));
      }
      var md := file.value;
      if md.players.None? || md.gameName.None? {
        return None;
      }
      var players := md.players.value;
      if |players| != 2 {
        return None;
      }
      if players[0].name.None? || players[1].name.None? {
        return Some(KeyError("name"));
      }
      if players[0].modelName.None? || players[1].modelName.None? {
        return Some(KeyError("model_name"));
      }
      if md.roundStats.None? {
        return Some(KeyError("round_stats"));
      }
      var names := (players[0].name.value, players[1].name.value);
      var game := md.gameName.value;
      var u0 := UniqueModelName(StripChar(players[0].modelName.value, '@'));
      var u1 := UniqueModelName(StripChar(players[1].modelName.value, '@'));
      err := AddRounds(md.roundStats.value, names, game, u0, u1);
    }

    /** The round loop of `_process_tournament`. */
    method AddRounds(rounds: seq<(string, RoundStats)>, names: (string, string), game: string,
                     u0: string, u1: string) returns (err: Option<Error>)
      modifies this
      ensures winMatrix == ApplyDeltas(old(winMatrix), game, SortedPair(u0, u1),
                                       RoundDeltas(rounds, scoring, names, game, u0, u1).0)
      ensures err == RoundDeltas(rounds, scoring, names, game, u0, u1).1
    {
      var pair := SortedPair(u0, u1);
      var i := 0;
      while i < |rounds|
        invariant 0 <= i <= |rounds|
        invariant RoundDeltas(rounds[..i], scoring, names, game, u0, u1).1 == None
        invariant winMatrix == ApplyDeltas(old(winMatrix), game, pair, RoundDeltas(rounds[..i], scoring, names, game, u0, u1).0)
      {
        RoundDeltasNext(rounds, i, scoring, names, game, u0, u1);
        var (idx, stats) := rounds[i];
        if idx != "0" {
          var score := GetScore(scoring.policy, stats, names, game, scoring.getScores, scoring.pValue);
          if score.Fail? {
            RoundDeltasStop(rounds, i + 1, scoring, names, game, u0, u1);
            return Some(score.error);
          }
          var d := Oriented(u0, u1, score.value);
          ApplyDeltasSnoc(old(winMatrix), game, pair, RoundDeltas(rounds[..i], scoring, names, game, u0, u1).0, d);
          winMatrix := AddCell(winMatrix, game, pair, d);
        }
        i := i + 1;
      }
      assert rounds[..i] == rounds;
      return None;
    }

    /** The total of the cells of one game. */
    method MatchupsTotal(m: Matchups) returns (total: real)
      ensures total == GameTotal(m)
    {
      total := 0.0;
      var rest := m.Keys;
      while rest != {}
        decreases rest
        invariant rest <= m.Keys
        invariant total == GameTotalOver(m, m.Keys - rest)
      {
        var p :| p in rest;
        SumSetAdd(m.Keys - rest, PairTotalIn(m), p);
        assert m.Keys - (rest - {p}) == (m.Keys - rest) + {p};
        total := total + PairTotal(m[p]);
        rest := rest - {p};
      }
      assert m.Keys - rest == m.Keys;
    }

    /** `_build_combined_matrix`: stores the pooled matrix under the key "ALL". */
    method BuildCombinedMatrix()
      modifies this
      ensures winMatrix == old(winMatrix)["ALL" := Pooled(old(winMatrix), scheme)]
    {
      var w := winMatrix;
      ghost var C := ContributionOf(w, scheme);
      var combined: map<Pair, Cell> := map[];
      ghost var done: set<Site> := {};
      var games := w.Keys;
      while games != {}
        decreases games
        invariant games <= w.Keys
        invariant done <= Sites(w)
        invariant forall s | s in Sites(w) :: s in done <==> s.0 !in games
        invariant combined == PooledOver(C, done)
      {
        var g :| g in games;
        var m := w[g];
        var total := 0.0;
        if scheme == ByGame {
          total := MatchupsTotal(m);
        }
        var pairs := m.Keys;
        while pairs != {}
          decreases pairs
          invariant pairs <= m.Keys
          invariant done <= Sites(w)
          invariant forall s | s in Sites(w) :: s in done <==> s.0 !in games || (s.0 == g && s.1 !in pairs)
          invariant combined == PooledOver(C, done)
        {
          var p :| p in pairs;
          assert (g, p) in Sites(w) && (g, p) !in done;
          var c := Normalized(scheme, m[p], total);
          assert c == C((g, p));
          PooledStep(C, done, (g, p));
          if c.Some? {
            combined := AddTo(combined, p, c.value);
          }
          done := done + {(g, p)};
          pairs := pairs - {p};
        }
        games := games - {g};
      }
      assert done == Sites(w);
      winMatrix := w["ALL" := combined];
    }

    /** `build`: processes every metadata file, logging the exceptions, then pools. */
    method Build(files: seq<Option<Metadata>>) returns (log: seq<Error>)
      modifies this
      ensures log == Errors(scoring, files)
      ensures var w := FoldEffects(old(winMatrix), Effects(scoring, files));
              winMatrix == w["ALL" := Pooled(w, scheme)]
    {
      log := [];
      var i := 0;
      while i < |files|
        invariant 0 <= i <= |files|
        invariant log == Errors(scoring, files[..i])
        invariant winMatrix == FoldEffects(old(winMatrix), Effects(scoring, files[..i]))
      {
        assert files[..i + 1][..i] == files[..i];
        ghost var es := Effects(scoring, files[..i]);
        assert (es + [TournamentEffect(scoring, files[i]).0])[..|es|] == es;
        var err := ProcessTournament(files[i]);
        if err.Some? {
          log := log + [err.value];
        }
        i := i + 1;
      }
      assert files[..i] == files;
      BuildCombinedMatrix();
    }
  }
}
