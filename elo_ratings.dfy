/** The online Elo rating of models per arena, rebuilt from the `metadata.json` of every
    finished tournament: each rated round moves two ratings by opposite amounts, and the
    report ends with each model's average rating weighted by the rounds it played. */
module EloRatings {
  import opened Wrappers
  import opened Text
  import opened Sums
  import opened TournamentData

  /** `ModelEloProfile`: one model in one arena. */
  datatype Profile = Profile(model: string, arena: string, rating: real, roundsPlayed: nat)

  /** The fields of `metadata.json` the rating script reads; None marks a missing key. */
  datatype Metadata = Metadata(
    players: Option<seq<PlayerConfig>>,
    sims: Option<int>,
    roundStats: Option<seq<(string, RoundStats)>>)

  /** A tournament folder holding a `game.log`: its name, and its metadata (None: not valid JSON). */
  datatype GameLog = GameLog(folderName: string, metadata: Option<Metadata>)

  /** `10 ** x`, which is positive. */
  type Exp10 = f: real -> real | forall x :: f(x) > 0.0 witness x => 1.0

  /** `expected_score(a, b)`: the probability that a player rated `a` beats one rated `b`. */
  function ExpectedScore(a: real, b: real, pow10: Exp10): (r: real)
    ensures 0.0 < r < 1.0
  {
    var t := pow10((b - a) / 400.0);
    assert 1.0 / (1.0 + t) < 1.0 by { assert 1.0 < 1.0 + t; }
    1.0 / (1.0 + t)
  }

  /** `10 ** (-x)` is the reciprocal of `10 ** x` at the exponent of a match between `a` and `b`. */
  predicate Reciprocal(pow10: Exp10, a: real, b: real) {
    pow10((a - b) / 400.0) == 1.0 / pow10((b - a) / 400.0)
  }

  /** The two expected scores of a match add up to one when `10 ** (-x)` is the reciprocal of
      `10 ** x`. */
  lemma ExpectedScoresComplement(a: real, b: real, pow10: Exp10)
    requires Reciprocal(pow10, a, b)
    ensures ExpectedScore(a, b, pow10) + ExpectedScore(b, a, pow10) == 1.0
  {
    var t, u := pow10((b - a) / 400.0), pow10((a - b) / 400.0);
    calc {
      1.0 / (1.0 + u);
      1.0 / (1.0 + 1.0 / t);
      { assert 1.0 + 1.0 / t == (t + 1.0) / t; }
      t / (t + 1.0);
    }
    assert 1.0 / (1.0 + t) + t / (t + 1.0) == (1.0 + t) / (1.0 + t);
  }

  /** The scores of the two rated entries, scaled to add up to one; a round where both scored
      nothing counts as a draw. */
  function Normalize(s1: real, s2: real): (r: (real, real))
    ensures r.0 + r.1 == 1.0
    ensures s1 + s2 > 0.0 ==> r.0 * (s1 + s2) == s1 && r.1 * (s1 + s2) == s2
    ensures s1 + s2 <= 0.0 ==> r == (0.5, 0.5)
  {
    var total := s1 + s2;
    if total > 0.0 then
      assert s1 / total + s2 / total == total / total;
      (s1 / total, s2 / total)
    else (0.5, 0.5)
  }

  // ---------------------------------------------------------------- profiles

  function ProfileKey(arena: string, model: string): string { arena + "." + model }

  function ProfileKeys(arena: string, models: set<string>): set<string> {
    set m | m in models :: ProfileKey(arena, m)
  }

  /** Every player has both a name and a model name. */
  predicate Complete(players: seq<PlayerConfig>) {
    forall i | 0 <= i < |players| :: players[i].name.Some? && players[i].modelName.Some?
  }

  lemma CompleteSnoc(players: seq<PlayerConfig>)
    requires players != []
    ensures var last := players[|players| - 1];
      Complete(players) <==> Complete(players[..|players| - 1]) && last.name.Some? && last.modelName.Some?
  {
    var init := players[..|players| - 1];
    assert forall i | 0 <= i < |init| :: init[i] == players[i];
  }

  function NamesOf(players: seq<PlayerConfig>): set<string> {
    set i | 0 <= i < |players| && players[i].name.Some? :: players[i].name.value
  }

  lemma NamesOfSnoc(players: seq<PlayerConfig>)
    requires players != [] && players[|players| - 1].name.Some?
    ensures NamesOf(players) == NamesOf(players[..|players| - 1]) + {players[|players| - 1].name.value}
  {
    var init := players[..|players| - 1];
    forall n | n in NamesOf(players) ensures n in NamesOf(init) + {players[|players| - 1].name.value} {
      var i :| 0 <= i < |players| && players[i].name.Some? && players[i].name.value == n;
      if i < |players| - 1 { assert init[i] == players[i]; }
    }
    forall n | n in NamesOf(init) ensures n in NamesOf(players) {
      var i :| 0 <= i < |init| && init[i].name.Some? && init[i].name.value == n;
      assert players[i] == init[i];
    }
  }

  /** `{x["name"]: x["config"]["model"]["model_name"].strip("@") for x in players}`, or None when
      a player lacks one of the keys. A name listed twice keeps its last model. */
  function PlayerModels(players: seq<PlayerConfig>): (r: Option<map<string, string>>)
    ensures r.Some? <==> Complete(players)
    ensures r.Some? ==> r.value.Keys == NamesOf(players)
    ensures r.Some? && players != [] ==>
      r.value[players[|players| - 1].name.value] == StripChar(players[|players| - 1].modelName.value, '@')
  {
    if players == [] then Some(map[])
    else
      var last := players[|players| - 1];
      var init := players[..|players| - 1];
      CompleteSnoc(players);
      match PlayerModels(init)
      case None => None
      case Some(m) =>
        if last.name.None? || last.modelName.None? then None
        else
          NamesOfSnoc(players);
          Some(m[last.name.value := StripChar(last.modelName.value, '@')])
  }

  /** The profiles after "Initialize profiles": a new one at the starting rating for each
      model without one in this arena; existing profiles are kept as they are. */
  function WithProfiles(profiles: map<string, Profile>, arena: string, models: set<string>, startingElo: real)
    : (r: map<string, Profile>)
    ensures r.Keys == profiles.Keys + ProfileKeys(arena, models)
    ensures forall q | q in profiles :: r[q] == profiles[q]
    ensures forall m | m in models && ProfileKey(arena, m) !in profiles ::
      r[ProfileKey(arena, m)] == Profile(m, arena, startingElo, 0)
    ensures forall q | q in r && q !in profiles :: r[q].rating == startingElo && r[q].roundsPlayed == 0
  {
    var r := map q | q in profiles.Keys + ProfileKeys(arena, models) ::
      if q in profiles then profiles[q] else Profile(q[|arena| + 1..], arena, startingElo, 0);
    assert forall m | m in models :: ProfileKey(arena, m)[|arena| + 1..] == m;
    r
  }

  // ---------------------------------------------------------------- one round

  /** The raw score of one `player_stats` entry: None when it is skipped (the tie key or a null
      score), 1.0 for the only valid submission, otherwise `score / sims`. */
  function EntryScore(k: string, v: PlayerStats, sims: int, validSubmits: nat): (r: Result<Option<real>>)
    ensures (k == Tie || v.score.None?) <==> r == Ok(None)
    ensures r == Fail(ZeroDivisionError) <==> k != Tie && v.score.Some? && sims == 0
    ensures r.Ok? && r.value.Some? && validSubmits == 1 && v.validSubmit == Present(true) ==> r.value.value == 1.0
    ensures r.Ok? && r.value.Some? && !(validSubmits == 1 && v.validSubmit == Present(true)) ==>
      r.value.value * sims as real == v.score.value
  {
    if k == Tie || v.score.None? then Ok(None)
    else if sims == 0 then Fail(ZeroDivisionError)
    else
      var s := v.score.value / sims as real;
      if validSubmits == 1 && v.validSubmit.Absent? then Fail(KeyError("valid_submit"))
      else if validSubmits == 1 && v.validSubmit == Present(true) then Ok(Some(1.0))
      else Ok(Some(s))
  }

  /** The (profile key, raw score) pairs of a round's scored entries, in order, or the first
      exception. */
  function RoundEntries(ps: seq<(string, PlayerStats)>, sims: int, validSubmits: nat,
                        p2m: map<string, string>, arena: string, keys: set<string>)
    : (r: Result<seq<(string, real)>>)
    ensures r.Ok? ==> |r.value| <= |ps| && forall e | e in r.value :: e.0 in keys
  {
    if ps == [] then Ok([])
    else
      var init :- RoundEntries(ps[..|ps| - 1], sims, validSubmits, p2m, arena, keys);
      var (k, v) := ps[|ps| - 1];
      var s :- EntryScore(k, v, sims, validSubmits);
      if s.None? then Ok(init)
      else if k !in p2m then Fail(KeyError(k))
      else if ProfileKey(arena, p2m[k]) !in keys then Fail(KeyError(ProfileKey(arena, p2m[k])))
      else Ok(init + [(ProfileKey(arena, p2m[k]), s.value)])
  }

  /** Each profile named in `ks` has played one more round per occurrence; nothing else changes. */
  function AddPlayed(profiles: map<string, Profile>, ks: seq<string>): (r: map<string, Profile>)
    requires forall k | k in ks :: k in profiles
    ensures r.Keys == profiles.Keys
    ensures forall q | q in r :: r[q] == profiles[q].(roundsPlayed := profiles[q].roundsPlayed + multiset(ks)[q])
  {
    if ks == [] then profiles
    else
      var init := ks[..|ks| - 1];
      var k := ks[|ks| - 1];
      assert ks == init + [k];
      var p := AddPlayed(profiles, init);
      p[k := p[k].(roundsPlayed := p[k].roundsPlayed + 1)]
  }

  /** `k_factor * (score - expected_score(rating, opponent))`: how far a player's rating moves. */
  function EloChange(rating: real, opponent: real, score: real, k: real, pow10: Exp10): real {
    k * (score - ExpectedScore(rating, opponent, pow10))
  }

  /** Rating `a` raised by `c`, then rating `b` lowered by `c`. */
  function Shifted(p: map<string, Profile>, a: string, b: string, c: real): (r: map<string, Profile>)
    requires a in p && b in p
    ensures r.Keys == p.Keys
    ensures forall q | q in p :: r[q].(rating := 0.0) == p[q].(rating := 0.0)
    ensures a != b ==> r[a].rating == p[a].rating + c && r[b].rating == p[b].rating - c
    ensures a == b ==> r[a].rating == p[a].rating + c - c
    ensures forall q | q in p && q != a && q != b :: r[q] == p[q]
  {
    var p1 := p[a := p[a].(rating := p[a].rating + c)];
    p1[b := p1[b].(rating := p1[b].rating - c)]
  }

  /** The Elo update of a round with two scored entries; AssertionError when the two rating
      changes do not cancel to within 1e-6. Both entries may name the same profile. */
  function EloUpdate(profiles: map<string, Profile>, e1: (string, real), e2: (string, real),
                     k: real, pow10: Exp10): (r: Result<map<string, Profile>>)
    requires e1.0 in profiles && e2.0 in profiles
  {
    var p1, p2 := profiles[e1.0], profiles[e2.0];
    var scores := Normalize(e1.1, e2.1);
    var change := EloChange(p1.rating, p2.rating, scores.0, k, pow10);
    var check := EloChange(p2.rating, p1.rating, scores.1, k, pow10);
    if !(-0.000001 < check + change < 0.000001) then Fail(AssertionError)
    else Ok(Shifted(profiles, e1.0, e2.0, change))
  }

  /** The two changes of a match cancel when both the scores and the expectations add up to one. */
  lemma ChangesCancel(r1: real, r2: real, s1: real, s2: real, k: real, pow10: Exp10)
    requires s1 + s2 == 1.0
    requires ExpectedScore(r1, r2, pow10) + ExpectedScore(r2, r1, pow10) == 1.0
    ensures EloChange(r2, r1, s2, k, pow10) + EloChange(r1, r2, s1, k, pow10) == 0.0
  {
    var x1, x2 := ExpectedScore(r1, r2, pow10), ExpectedScore(r2, r1, pow10);
    assert k * (s2 - x2) + k * (s1 - x1) == k * ((s1 + s2) - (x1 + x2));
  }

  /** With the exact `10 ** x`, whose value at `-x` is the reciprocal of its value at `x`, the
      assertion that the two changes cancel never fails. */
  lemma EloUpdateNeverAsserts(profiles: map<string, Profile>, e1: (string, real), e2: (string, real),
                              k: real, pow10: Exp10)
    requires e1.0 in profiles && e2.0 in profiles
    requires Reciprocal(pow10, profiles[e1.0].rating, profiles[e2.0].rating)
    ensures EloUpdate(profiles, e1, e2, k, pow10).Ok?
  {
    var r1, r2 := profiles[e1.0].rating, profiles[e2.0].rating;
    var n := Normalize(e1.1, e2.1);
    ExpectedScoresComplement(r1, r2, pow10);
    ChangesCancel(r1, r2, n.0, n.1, k, pow10);
    var c1 := EloChange(r1, r2, n.0, k, pow10);
    assert EloUpdate(profiles, e1, e2, k, pow10) == Ok(Shifted(profiles, e1.0, e2.0, c1));
  }

  /** One round: count the scored entries' rounds, then rate the round if exactly two
      entries were scored. */
  function RoundOutcome(profiles: map<string, Profile>, stats: RoundStats, sims: int,
                        p2m: map<string, string>, arena: string, k: real, pow10: Exp10)
    : (r: Result<map<string, Profile>>)
    ensures r.Ok? ==> r.value.Keys == profiles.Keys
    ensures r.Ok? ==>
      var es := RoundEntries(stats.playerStats, sims, ValidSubmits(stats.playerStats), p2m, arena, profiles.Keys);
      es.Ok? && var entries := es.value;
      forall q | q in profiles ::
        r.value[q].roundsPlayed == profiles[q].roundsPlayed + multiset(Keys(entries))[q] &&
        (|entries| != 2 ==> r.value[q].rating == profiles[q].rating)
  {
    var entries :- RoundEntries(stats.playerStats, sims, ValidSubmits(stats.playerStats), p2m, arena, profiles.Keys);
    var played := AddPlayed(profiles, Keys(entries));
    if |entries| == 2 then EloUpdate(played, entries[0], entries[1], k, pow10) else Ok(played)
  }

  function Keys(entries: seq<(string, real)>): (r: seq<string>)
    ensures |r| == |entries| && forall i | 0 <= i < |r| :: r[i] == entries[i].0
  {
    seq(|entries|, i requires 0 <= i < |entries| => entries[i].0)
  }

  /** All rounds of a two-player tournament in order, skipping round "0". */
  function TournamentOutcome(profiles: map<string, Profile>, rounds: seq<(string, RoundStats)>, sims: int,
                             p2m: map<string, string>, arena: string, k: real, pow10: Exp10)
    : (r: Result<map<string, Profile>>)
    ensures r.Ok? ==> r.value.Keys == profiles.Keys
  {
    if rounds == [] then Ok(profiles)
    else
      var before :- TournamentOutcome(profiles, rounds[..|rounds| - 1], sims, p2m, arena, k, pow10);
      var (idx, stats) := rounds[|rounds| - 1];
      if idx == "0" then Ok(before) else RoundOutcome(before, stats, sims, p2m, arena, k, pow10)
  }

  /** One tournament folder: a folder with malformed players is skipped, a tournament that
      does not have exactly two distinct player names only creates profiles. */
  function LogOutcome(profiles: map<string, Profile>, log: GameLog, k: real, startingElo: real, pow10: Exp10)
    : (r: Result<map<string, Profile>>)
    ensures r.Ok? ==> profiles.Keys <= r.value.Keys
  {
    var arena :- ArenaOf(log.folderName);
    if log.metadata.None? then Fail(ValueError("invalid JSON"))
    else
      var md := log.metadata.value;
      var p2m := if md.players.None? then None else PlayerModels(md.players.value);
      if p2m.None? then Ok(profiles)
      else
        var withP := WithProfiles(profiles, arena, p2m.value.Values, startingElo);
        if md.sims.None? then Fail(KeyError("sims_per_round"))
        else if |p2m.value| != 2 then Ok(withP)
        else if md.roundStats.None? then Fail(KeyError("round_stats"))
        else TournamentOutcome(withP, md.roundStats.value, md.sims.value, p2m.value, arena, k, pow10)
  }

  /** All tournament folders in order; the first exception ends the run. */
  function RunOutcome(logs: seq<GameLog>, k: real, startingElo: real, pow10: Exp10)
    : (r: Result<map<string, Profile>>)
  {
    if logs == [] then Ok(map[])
    else
      var before :- RunOutcome(logs[..|logs| - 1], k, startingElo, pow10);
      LogOutcome(before, logs[|logs| - 1], k, startingElo, pow10)
  }

  // ---------------------------------------------------------------- zero sum

  /** A profile's rating above `base` (0 outside the map). */
  ghost function RatingIn(p: map<string, Profile>, base: real): string -> real {
    q => if q in p then p[q].rating - base else 0.0
  }

  /** The sum of all ratings less `base` each; with `base` 0 it is the sum of all ratings. */
  ghost function Excess(p: map<string, Profile>, base: real): real {
    SumSet(p.Keys, RatingIn(p, base))
  }

  lemma ExcessUpdate(p: map<string, Profile>, q: string, v: Profile, base: real)
    requires q in p
    ensures Excess(p[q := v], base) == Excess(p, base) - p[q].rating + v.rating
  {
    var p' := p[q := v];
    assert p'.Keys == p.Keys;
    SumSetRemove(p.Keys, RatingIn(p, base), q);
    SumSetRemove(p.Keys, RatingIn(p', base), q);
    SumSetExt(p.Keys - {q}, RatingIn(p, base), RatingIn(p', base));
  }

  lemma SameRatingsSameExcess(p: map<string, Profile>, p': map<string, Profile>, base: real)
    requires p.Keys == p'.Keys && forall q | q in p :: p[q].rating == p'[q].rating
    ensures Excess(p, base) == Excess(p', base)
  {
    SumSetExt(p.Keys, RatingIn(p, base), RatingIn(p', base));
  }

  /** Adding `c` to one rating and taking it from another (possibly the same) keeps the sum. */
  lemma OppositeChangesZeroSum(p: map<string, Profile>, a: string, b: string, c: real, base: real)
    requires a in p && b in p
    ensures Excess(Shifted(p, a, b, c), base) == Excess(p, base)
  {
    var p1 := p[a := p[a].(rating := p[a].rating + c)];
    ExcessUpdate(p, a, p[a].(rating := p[a].rating + c), base);
    ExcessUpdate(p1, b, p1[b].(rating := p1[b].rating - c), base);
  }

  /** The Elo update is zero-sum: what one entry gains the other loses. */
  lemma EloUpdateZeroSum(profiles: map<string, Profile>, e1: (string, real), e2: (string, real), k: real,
                         pow10: Exp10, base: real)
    requires e1.0 in profiles && e2.0 in profiles
    requires EloUpdate(profiles, e1, e2, k, pow10).Ok?
    ensures Excess(EloUpdate(profiles, e1, e2, k, pow10).value, base) == Excess(profiles, base)
  {
    var c := EloChange(profiles[e1.0].rating, profiles[e2.0].rating, Normalize(e1.1, e2.1).0, k, pow10);
    assert EloUpdate(profiles, e1, e2, k, pow10).value == Shifted(profiles, e1.0, e2.0, c);
    OppositeChangesZeroSum(profiles, e1.0, e2.0, c, base);
  }

  /** A round leaves the sum of all ratings unchanged. */
  lemma RoundZeroSum(profiles: map<string, Profile>, stats: RoundStats, sims: int,
                     p2m: map<string, string>, arena: string, k: real, pow10: Exp10, base: real)
    requires RoundOutcome(profiles, stats, sims, p2m, arena, k, pow10).Ok?
    ensures Excess(RoundOutcome(profiles, stats, sims, p2m, arena, k, pow10).value, base) == Excess(profiles, base)
  {
    var entries := RoundEntries(stats.playerStats, sims, ValidSubmits(stats.playerStats), p2m, arena, profiles.Keys).value;
    var played := AddPlayed(profiles, Keys(entries));
    SameRatingsSameExcess(profiles, played, base);
    if |entries| == 2 {
      EloUpdateZeroSum(played, entries[0], entries[1], k, pow10, base);
    }
  }

  lemma {:induction false} TournamentZeroSum(profiles: map<string, Profile>, rounds: seq<(string, RoundStats)>,
                                             sims: int, p2m: map<string, string>, arena: string, k: real,
                                             pow10: Exp10, base: real)
    requires TournamentOutcome(profiles, rounds, sims, p2m, arena, k, pow10).Ok?
    ensures Excess(TournamentOutcome(profiles, rounds, sims, p2m, arena, k, pow10).value, base) == Excess(profiles, base)
  {
    if rounds != [] {
      var init := rounds[..|rounds| - 1];
      TournamentZeroSum(profiles, init, sims, p2m, arena, k, pow10, base);
      var before := TournamentOutcome(profiles, init, sims, p2m, arena, k, pow10).value;
      var (idx, stats) := rounds[|rounds| - 1];
      if idx != "0" {
        RoundZeroSum(before, stats, sims, p2m, arena, k, pow10, base);
      }
    }
  }

  /** Profiles that keep their ratings and gain new ones at rating `base` keep the excess over
      `base`. */
  lemma ExtendExcess(p: map<string, Profile>, r: map<string, Profile>, base: real)
    requires p.Keys <= r.Keys
    requires forall q | q in p :: r[q].rating == p[q].rating
    requires forall q | q in r && q !in p :: r[q].rating == base
    ensures Excess(r, base) == Excess(p, base)
  {
    var added := r.Keys - p.Keys;
    assert r.Keys == p.Keys + added;
    SumSetUnion(p.Keys, added, RatingIn(r, base));
    SumSetExt(p.Keys, RatingIn(r, base), RatingIn(p, base));
    SumSetZero(added, RatingIn(r, base));
  }

  /** However the tournaments went, the ratings exceed the starting rating by nothing in total:
      every profile enters at it and every update is zero-sum. */
  lemma {:induction false} ExcessOverStartingEloIsZero(logs: seq<GameLog>, k: real, startingElo: real, pow10: Exp10)
    requires RunOutcome(logs, k, startingElo, pow10).Ok?
    ensures Excess(RunOutcome(logs, k, startingElo, pow10).value, startingElo) == 0.0
  {
    if logs == [] {
      assert RunOutcome(logs, k, startingElo, pow10).value == map[];
    } else {
      var init := logs[..|logs| - 1];
      ExcessOverStartingEloIsZero(init, k, startingElo, pow10);
      var before := RunOutcome(init, k, startingElo, pow10).value;
      var log := logs[|logs| - 1];
      var arena := ArenaOf(log.folderName).value;
      var md := log.metadata.value;
      var p2m := if md.players.None? then None else PlayerModels(md.players.value);
      if p2m.Some? {
        var withP := WithProfiles(before, arena, p2m.value.Values, startingElo);
        ExtendExcess(before, withP, startingElo);
        if |p2m.value| == 2 {
          TournamentZeroSum(withP, md.roundStats.value, md.sims.value, p2m.value, arena, k, pow10, startingElo);
        }
      }
    }
  }

  /** The total rating is the excess over `base` plus `base` per profile. */
  lemma ExcessOverBase(p: map<string, Profile>, base: real)
    ensures Excess(p, 0.0) == Excess(p, base) + base * |p.Keys| as real
  {
    var f := (q: string) => base;
    SumSetPlus(p.Keys, RatingIn(p, base), f, RatingIn(p, 0.0));
    SumSetConst(p.Keys, f, base);
  }

  // ---------------------------------------------------------------- weighted average

  ghost function RatingOf(p: map<string, Profile>): string -> real {
    q => if q in p then p[q].rating else 0.0
  }

  /** `profile.rating * profile.rounds_played`. */
  function Weight(pr: Profile): real {
    pr.rating * pr.roundsPlayed as real
  }

  /** A profile of model `m`'s rating times its rounds played. */
  ghost function WeightedIn(p: map<string, Profile>, m: string): string -> real {
    q => if q in p && p[q].model == m then Weight(p[q]) else 0.0
  }

  ghost function RoundsIn(p: map<string, Profile>, m: string): string -> real {
    q => if q in p && p[q].model == m then p[q].roundsPlayed as real else 0.0
  }

  function Models(p: map<string, Profile>): set<string> {
    set q | q in p :: p[q].model
  }

  /** Per model with at least one round played: its ratings across arenas averaged with the
      rounds played as weights. */
  ghost function WeightedAverages(p: map<string, Profile>): map<string, real> {
    map m | m in Models(p) && SumSet(p.Keys, RoundsIn(p, m)) > 0.0 ::
      SumSet(p.Keys, WeightedIn(p, m)) / SumSet(p.Keys, RoundsIn(p, m))
  }

  /** A quotient of two sums lies between the bounds of the per-key quotients. */
  lemma QuotientBetween(w: real, r: real, lo: real, hi: real)
    requires r > 0.0 && lo * r <= w <= hi * r
    ensures lo <= w / r <= hi
  {
    assert w / r * r == w;
  }

  ghost function Times(f: string -> real, g: string -> real): string -> real {
    q => f(q) * g(q)
  }

  ghost function Scaled(c: real, f: string -> real): string -> real {
    q => c * f(q)
  }

  lemma ScaledSum(keys: set<string>, weight: string -> real, c: real)
    ensures SumSet(keys, Scaled(c, weight)) == c * SumSet(keys, weight)
  {
    SumSetScale(keys, weight, c, Scaled(c, weight));
  }

  /** A lower bound on each weighted value bounds the weighted sum from below. */
  lemma WeightedSumAtLeast(keys: set<string>, weight: string -> real, value: string -> real, lo: real)
    requires forall q | q in keys :: weight(q) >= 0.0 && (weight(q) > 0.0 ==> lo <= value(q))
    ensures lo * SumSet(keys, weight) <= SumSet(keys, Times(value, weight))
  {
    PointwiseAtLeast(keys, weight, value, lo);
    ScaledSum(keys, weight, lo);
    SumSetMono(keys, Scaled(lo, weight), Times(value, weight));
  }

  /** An upper bound on each weighted value bounds the weighted sum from above. */
  lemma WeightedSumAtMost(keys: set<string>, weight: string -> real, value: string -> real, hi: real)
    requires forall q | q in keys :: weight(q) >= 0.0 && (weight(q) > 0.0 ==> value(q) <= hi)
    ensures SumSet(keys, Times(value, weight)) <= hi * SumSet(keys, weight)
  {
    PointwiseAtMost(keys, weight, value, hi);
    ScaledSum(keys, weight, hi);
    SumSetMono(keys, Times(value, weight), Scaled(hi, weight));
  }

  lemma PointwiseAtLeast(keys: set<string>, weight: string -> real, value: string -> real, lo: real)
    requires forall q | q in keys :: weight(q) >= 0.0 && (weight(q) > 0.0 ==> lo <= value(q))
    ensures forall q | q in keys :: Scaled(lo, weight)(q) <= Times(value, weight)(q)
  {
    forall q | q in keys ensures Scaled(lo, weight)(q) <= Times(value, weight)(q) {
      ProductAtLeast(value(q), weight(q), lo);
    }
  }

  lemma PointwiseAtMost(keys: set<string>, weight: string -> real, value: string -> real, hi: real)
    requires forall q | q in keys :: weight(q) >= 0.0 && (weight(q) > 0.0 ==> value(q) <= hi)
    ensures forall q | q in keys :: Times(value, weight)(q) <= Scaled(hi, weight)(q)
  {
    forall q | q in keys ensures Times(value, weight)(q) <= Scaled(hi, weight)(q) {
      ProductAtMost(value(q), weight(q), hi);
    }
  }

  lemma ProductAtLeast(v: real, w: real, lo: real)
    requires w >= 0.0 && (w > 0.0 ==> lo <= v)
    ensures lo * w <= v * w
  {
    if w > 0.0 {
      ProductBetween(v, w, lo, v);
    }
  }

  lemma ProductAtMost(v: real, w: real, hi: real)
    requires w >= 0.0 && (w > 0.0 ==> v <= hi)
    ensures v * w <= hi * w
  {
    if w > 0.0 {
      ProductBetween(v, w, v, hi);
    }
  }

  /** A weighted mean lies between the bounds of the values that carry weight. */
  lemma WeightedMeanBetween(keys: set<string>, weight: string -> real, value: string -> real, lo: real, hi: real)
    requires SumSet(keys, weight) > 0.0
    requires forall q | q in keys :: weight(q) >= 0.0 && (weight(q) > 0.0 ==> lo <= value(q) <= hi)
    ensures lo <= SumSet(keys, Times(value, weight)) / SumSet(keys, weight) <= hi
  {
    WeightedSumAtLeast(keys, weight, value, lo);
    WeightedSumAtMost(keys, weight, value, hi);
    QuotientBetween(SumSet(keys, Times(value, weight)), SumSet(keys, weight), lo, hi);
  }

  lemma ProductBetween(v: real, w: real, lo: real, hi: real)
    requires w > 0.0 && lo <= v <= hi
    ensures lo * w <= v * w <= hi * w
  {
  }

  /** A model's weighted average lies between the lowest and the highest rating among its
      profiles that played. */
  lemma WeightedAverageWithinRatings(p: map<string, Profile>, m: string, lo: real, hi: real)
    requires m in WeightedAverages(p)
    requires forall q | q in p && p[q].model == m && p[q].roundsPlayed > 0 :: lo <= p[q].rating <= hi
    ensures lo <= WeightedAverages(p)[m] <= hi
  {
    WeightedIsRatingTimesRounds(p, m);
    WeightedMeanBetween(p.Keys, RoundsIn(p, m), RatingOf(p), lo, hi);
  }

  lemma WeightedIsRatingTimesRounds(p: map<string, Profile>, m: string)
    ensures SumSet(p.Keys, WeightedIn(p, m)) == SumSet(p.Keys, Times(RatingOf(p), RoundsIn(p, m)))
  {
    forall q | q in p.Keys ensures WeightedIn(p, m)(q) == Times(RatingOf(p), RoundsIn(p, m))(q) {
      if p[q].model == m {
        ProductOfEquals(RatingOf(p)(q), RoundsIn(p, m)(q), p[q].rating, p[q].roundsPlayed as real);
      } else {
        ProductOfEquals(RatingOf(p)(q), RoundsIn(p, m)(q), p[q].rating, 0.0);
      }
    }
    SumSetExt(p.Keys, WeightedIn(p, m), Times(RatingOf(p), RoundsIn(p, m)));
  }

  lemma ProductOfEquals(a: real, b: real, c: real, d: real)
    requires a == c && b == d
    ensures a * b == c * d
  {
  }
}
