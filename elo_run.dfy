/** The loops of the Elo script itself: the profiles dictionary is updated entry by entry,
    round by round and folder by folder, and each loop is proved to compute the outcome the
    rating model defines. */
module EloRun {
  import opened Wrappers
  import opened Sums
  import opened TournamentData
  import opened EloRatings

  // ---------------------------------------------------------------- an exception ends the loop

  /** Once a prefix of a round's entries raises, the whole round raises the same exception. */
  lemma {:induction false} RoundEntriesStop(ps: seq<(string, PlayerStats)>, sims: int, validSubmits: nat,
                                            p2m: map<string, string>, arena: string, keys: set<string>, i: nat)
    requires i <= |ps|
    requires RoundEntries(ps[..i], sims, validSubmits, p2m, arena, keys).Fail?
    ensures RoundEntries(ps, sims, validSubmits, p2m, arena, keys) ==
            RoundEntries(ps[..i], sims, validSubmits, p2m, arena, keys)
    decreases |ps| - i
  {
    if i < |ps| {
      assert ps[..i + 1][..i] == ps[..i];
      RoundEntriesStop(ps, sims, validSubmits, p2m, arena, keys, i + 1);
    } else {
      assert ps[..i] == ps;
    }
  }

  lemma {:induction false} TournamentOutcomeStop(profiles: map<string, Profile>, rounds: seq<(string, RoundStats)>,
                                                 sims: int, p2m: map<string, string>, arena: string, k: real,
                                                 pow10: Exp10, i: nat)
    requires i <= |rounds|
    requires TournamentOutcome(profiles, rounds[..i], sims, p2m, arena, k, pow10).Fail?
    ensures TournamentOutcome(profiles, rounds, sims, p2m, arena, k, pow10) ==
            TournamentOutcome(profiles, rounds[..i], sims, p2m, arena, k, pow10)
    decreases |rounds| - i
  {
    if i < |rounds| {
      assert rounds[..i + 1][..i] == rounds[..i];
      TournamentOutcomeStop(profiles, rounds, sims, p2m, arena, k, pow10, i + 1);
    } else {
      assert rounds[..i] == rounds;
    }
  }

  lemma {:induction false} RunOutcomeStop(logs: seq<GameLog>, k: real, startingElo: real, pow10: Exp10, i: nat)
    requires i <= |logs|
    requires RunOutcome(logs[..i], k, startingElo, pow10).Fail?
    ensures RunOutcome(logs, k, startingElo, pow10) == RunOutcome(logs[..i], k, startingElo, pow10)
    decreases |logs| - i
  {
    if i < |logs| {
      assert logs[..i + 1][..i] == logs[..i];
      RunOutcomeStop(logs, k, startingElo, pow10, i + 1);
    } else {
      assert logs[..i] == logs;
    }
  }

  lemma TournamentOutcomeNext(profiles: map<string, Profile>, rounds: seq<(string, RoundStats)>,
                              sims: int, p2m: map<string, string>, arena: string, k: real,
                              pow10: Exp10, i: nat, cur: map<string, Profile>)
    requires i < |rounds|
    requires TournamentOutcome(profiles, rounds[..i], sims, p2m, arena, k, pow10) == Ok(cur)
    ensures TournamentOutcome(profiles, rounds[..i + 1], sims, p2m, arena, k, pow10) ==
      if rounds[i].0 == "0" then Ok(cur) else RoundOutcome(cur, rounds[i].1, sims, p2m, arena, k, pow10)
  {
    assert rounds[..i + 1][..i] == rounds[..i];
  }

  lemma RunOutcomeNext(logs: seq<GameLog>, k: real, startingElo: real, pow10: Exp10, i: nat,
                       cur: map<string, Profile>)
    requires i < |logs|
    requires RunOutcome(logs[..i], k, startingElo, pow10) == Ok(cur)
    ensures RunOutcome(logs[..i + 1], k, startingElo, pow10) == LogOutcome(cur, logs[i], k, startingElo, pow10)
  {
    assert logs[..i + 1][..i] == logs[..i];
  }

  // ---------------------------------------------------------------- one round

  /** Counts the valid submissions of a round. */
  method CountValidSubmits(ps: seq<(string, PlayerStats)>) returns (n: nat)
    ensures n == ValidSubmits(ps)
  {
    n := 0;
    for i := 0 to |ps|
      invariant n == ValidSubmits(ps[..i])
    {
      assert ps[..i + 1][..i] == ps[..i];
      if ps[i].1.validSubmit == Present(true) {
        n := n + 1;
      }
    }
    assert ps[..|ps|] == ps;
  }

  /** Scores the entries of one round in order, adding a played round to each scored
      entry's profile as it goes. */
  method ScoreEntries(profiles: map<string, Profile>, ps: seq<(string, PlayerStats)>, sims: int,
                      validSubmits: nat, p2m: map<string, string>, arena: string)
    returns (r: Result<(seq<(string, real)>, map<string, Profile>)>)
    ensures var es := RoundEntries(ps, sims, validSubmits, p2m, arena, profiles.Keys);
      && (es.Fail? ==> r == Fail(es.error))
      && (es.Ok? ==> r == Ok((es.value, AddPlayed(profiles, Keys(es.value)))))
  {
    var cur := profiles;
    var entries: seq<(string, real)> := [];
    for i := 0 to |ps|
      invariant RoundEntries(ps[..i], sims, validSubmits, p2m, arena, profiles.Keys) == Ok(entries)
      invariant Counted(profiles, cur, entries)
    {
      var next := ScoreEntry(profiles, ps, sims, validSubmits, p2m, arena, i, entries, cur);
      if next.Fail? {
        RoundEntriesStop(ps, sims, validSubmits, p2m, arena, profiles.Keys, i + 1);
        return Fail(next.error);
      }
      entries, cur := next.value.0, next.value.1;
    }
    assert ps[..|ps|] == ps;
    CountedIsAddPlayed(profiles, cur, entries);
    r := Ok((entries, cur));
  }

  /** The body of the loop over a round's entries: scores entry `i` and, when it scored,
      looks up its profile and adds a played round to it. */
  method ScoreEntry(profiles: map<string, Profile>, ps: seq<(string, PlayerStats)>, sims: int,
                    validSubmits: nat, p2m: map<string, string>, arena: string, i: nat,
                    entries: seq<(string, real)>, cur: map<string, Profile>)
    returns (r: Result<(seq<(string, real)>, map<string, Profile>)>)
    requires i < |ps|
    requires RoundEntries(ps[..i], sims, validSubmits, p2m, arena, profiles.Keys) == Ok(entries)
    requires Counted(profiles, cur, entries)
    ensures var es := RoundEntries(ps[..i + 1], sims, validSubmits, p2m, arena, profiles.Keys);
      && (es.Fail? ==> r == Fail(es.error))
      && (es.Ok? ==> r.Ok? && r.value.0 == es.value && Counted(profiles, r.value.1, r.value.0))
  {
    assert ps[..i + 1][..i] == ps[..i];
    var (key, v) := ps[i];
    var s := EntryScore(key, v, sims, validSubmits);
    if s.Fail? {
      return Fail(s.error);
    }
    if s.value.None? {
      return Ok((entries, cur));
    }
    if key !in p2m {
      return Fail(KeyError(key));
    }
    var q := ProfileKey(arena, p2m[key]);
    if q !in cur {
      return Fail(KeyError(q));
    }
    CountedSnoc(profiles, cur, entries, (q, s.value.value));
    r := Ok((entries + [(q, s.value.value)], cur[q := cur[q].(roundsPlayed := cur[q].roundsPlayed + 1)]));
  }

  /** `cur` is `profiles` with one more played round per entry naming the profile. */
  ghost predicate Counted(profiles: map<string, Profile>, cur: map<string, Profile>, entries: seq<(string, real)>) {
    && (forall e | e in entries :: e.0 in profiles)
    && cur.Keys == profiles.Keys
    && forall q | q in cur ::
         cur[q] == profiles[q].(roundsPlayed := profiles[q].roundsPlayed + multiset(Keys(entries))[q])
  }

  lemma CountedSnoc(profiles: map<string, Profile>, cur: map<string, Profile>, entries: seq<(string, real)>,
                    e: (string, real))
    requires e.0 in cur && Counted(profiles, cur, entries)
    ensures Counted(profiles, cur[e.0 := cur[e.0].(roundsPlayed := cur[e.0].roundsPlayed + 1)], entries + [e])
  {
    KeysSnoc(entries, e);
    forall x | x in entries + [e] ensures x.0 in profiles {
      if x != e {
        assert x in entries;
      }
    }
  }

  /** One more entry adds its key to the multiset of keys. */
  lemma KeysSnoc(entries: seq<(string, real)>, e: (string, real))
    ensures multiset(Keys(entries + [e])) == multiset(Keys(entries)) + multiset{e.0}
  {
    assert Keys(entries + [e]) == Keys(entries) + [e.0];
  }

  /** A map that counts the rounds key by key is the one `AddPlayed` builds. */
  lemma CountedIsAddPlayed(profiles: map<string, Profile>, cur: map<string, Profile>, entries: seq<(string, real)>)
    requires Counted(profiles, cur, entries)
    ensures forall k | k in Keys(entries) :: k in profiles
    ensures cur == AddPlayed(profiles, Keys(entries))
  {
    forall k | k in Keys(entries) ensures k in profiles {
      var i :| 0 <= i < |Keys(entries)| && Keys(entries)[i] == k;
      assert entries[i] in entries;
    }
  }

  /** One round: the entries are scored, then the Elo update applies when exactly two were
      scored. */
  method RateRound(profiles: map<string, Profile>, stats: RoundStats, sims: int,
                   p2m: map<string, string>, arena: string, k: real, pow10: Exp10)
    returns (r: Result<map<string, Profile>>)
    ensures r == RoundOutcome(profiles, stats, sims, p2m, arena, k, pow10)
  {
    var validSubmits := CountValidSubmits(stats.playerStats);
    var scored := ScoreEntries(profiles, stats.playerStats, sims, validSubmits, p2m, arena);
    if scored.Fail? {
      return Fail(scored.error);
    }
    var (entries, cur) := scored.value;
    if |entries| == 2 {
      r := EloUpdate(cur, entries[0], entries[1], k, pow10);
    } else {
      r := Ok(cur);
    }
  }

  /** Rates the rounds of a tournament in order, skipping round "0". */
  method RateTournament(profiles: map<string, Profile>, rounds: seq<(string, RoundStats)>, sims: int,
                        p2m: map<string, string>, arena: string, k: real, pow10: Exp10)
    returns (r: Result<map<string, Profile>>)
    ensures r == TournamentOutcome(profiles, rounds, sims, p2m, arena, k, pow10)
  {
    var cur := profiles;
    for i := 0 to |rounds|
      invariant TournamentOutcome(profiles, rounds[..i], sims, p2m, arena, k, pow10) == Ok(cur)
    {
      TournamentOutcomeNext(profiles, rounds, sims, p2m, arena, k, pow10, i, cur);
      var (idx, stats) := rounds[i];
      if idx != "0" {
        var next := RateRound(cur, stats, sims, p2m, arena, k, pow10);
        if next.Fail? {
          TournamentOutcomeStop(profiles, rounds, sims, p2m, arena, k, pow10, i + 1);
          return next;
        }
        cur := next.value;
      }
    }
    assert rounds[..|rounds|] == rounds;
    return Ok(cur);
  }

  // ---------------------------------------------------------------- one folder

  /** Creating the profile of one more model: nothing happens when it already exists. */
  lemma WithProfilesStep(profiles: map<string, Profile>, arena: string, done: set<string>, m: string,
                         startingElo: real)
    ensures var w := WithProfiles(profiles, arena, done, startingElo);
      var key := ProfileKey(arena, m);
      WithProfiles(profiles, arena, done + {m}, startingElo) ==
        if key in w then w else w[key := Profile(m, arena, startingElo, 0)]
  {
    var w := WithProfiles(profiles, arena, done, startingElo);
    var w' := WithProfiles(profiles, arena, done + {m}, startingElo);
    var key := ProfileKey(arena, m);
    var expected := if key in w then w else w[key := Profile(m, arena, startingElo, 0)];
    assert w'.Keys == expected.Keys;
    forall q | q in w' ensures w'[q] == expected[q] {
      if q !in profiles {
        var m' :| m' in done + {m} && q == ProfileKey(arena, m');
        assert m' == q[|arena| + 1..];
      }
    }
  }

  /** "Initialize profiles": one profile per model of the folder that has none in this arena. */
  method InitProfiles(profiles: map<string, Profile>, arena: string, models: set<string>, startingElo: real)
    returns (r: map<string, Profile>)
    ensures r == WithProfiles(profiles, arena, models, startingElo)
  {
    r := profiles;
    var rest := models;
    assert WithProfiles(profiles, arena, {}, startingElo) == profiles;
    while rest != {}
      invariant rest <= models
      invariant r == WithProfiles(profiles, arena, models - rest, startingElo)
      decreases rest
    {
      var m :| m in rest;
      WithProfilesStep(profiles, arena, models - rest, m, startingElo);
      var key := ProfileKey(arena, m);
      if key !in r {
        r := r[key := Profile(m, arena, startingElo, 0)];
      }
      assert models - (rest - {m}) == (models - rest) + {m};
      rest := rest - {m};
    }
    assert models - rest == models;
  }

  /** One tournament folder, as the body of the script's folder loop. */
  method RateLog(profiles: map<string, Profile>, log: GameLog, k: real, startingElo: real, pow10: Exp10)
    returns (r: Result<map<string, Profile>>)
    ensures r == LogOutcome(profiles, log, k, startingElo, pow10)
  {
    var arena := ArenaOf(log.folderName);
    if arena.Fail? {
      return Fail(arena.error);
    }
    if log.metadata.None? {
      return Fail(ValueError("invalid JSON"));
    }
    var md := log.metadata.value;
    if md.players.None? {
      return Ok(profiles);
    }
    var p2m := PlayerModels(md.players.value);
    if p2m.None? {
      return Ok(profiles);
    }
    var cur := InitProfiles(profiles, arena.value, p2m.value.Values, startingElo);
    if md.sims.None? {
      return Fail(KeyError("sims_per_round"));
    }
    if |p2m.value| != 2 {
      return Ok(cur);
    }
    if md.roundStats.None? {
      return Fail(KeyError("round_stats"));
    }
    r := RateTournament(cur, md.roundStats.value, md.sims.value, p2m.value, arena.value, k, pow10);
  }

  // ---------------------------------------------------------------- the whole run

  /** `weighted_elo.get(m, 0)` and its like. */
  function GetOr(d: map<string, real>, m: string): real {
    if m in d then d[m] else 0.0
  }

  /** `weighted` and `games` hold, per model, the sums over the profiles in `done`. */
  ghost predicate SumsOver(p: map<string, Profile>, done: set<string>, weighted: map<string, real>,
                           games: map<string, real>)
  {
    && (forall m :: GetOr(weighted, m) == SumSet(done, WeightedIn(p, m)))
    && (forall m :: GetOr(games, m) == SumSet(done, RoundsIn(p, m)))
  }

  /** The dictionaries after visiting the profiles `ks` in order: `weighted_elo[mid]` and
      `total_games[mid]` as the script's loop leaves them. */
  function Tally(p: map<string, Profile>, ks: seq<string>): (r: (map<string, real>, map<string, real>))
    requires forall k | k in ks :: k in p
    ensures r.0.Keys == r.1.Keys
  {
    if ks == [] then (map[], map[])
    else
      var (w, g) := Tally(p, ks[..|ks| - 1]);
      var q := ks[|ks| - 1];
      var mid := p[q].model;
      assert forall k | k in ks :: k in ks[..|ks| - 1] || k == q;
      (w[mid := GetOr(w, mid) + Weight(p[q])], g[mid := GetOr(g, mid) + p[q].roundsPlayed as real])
  }

  lemma TallySnoc(p: map<string, Profile>, ks: seq<string>)
    requires ks != [] && forall k | k in ks :: k in p
    ensures var init := ks[..|ks| - 1];
      var mid := p[ks[|ks| - 1]].model;
      && Tally(p, ks).0 == Tally(p, init).0[mid := GetOr(Tally(p, init).0, mid) + Weight(p[ks[|ks| - 1]])]
      && Tally(p, ks).1 == Tally(p, init).1[mid := GetOr(Tally(p, init).1, mid) + p[ks[|ks| - 1]].roundsPlayed as real]
  {
  }

  /** The keys in `ks`, as a set. */
  ghost function Visited(ks: seq<string>): set<string> {
    if ks == [] then {} else Visited(ks[..|ks| - 1]) + {ks[|ks| - 1]}
  }

  /** No key is visited twice. */
  ghost predicate Once(ks: seq<string>) {
    ks != [] ==> ks[|ks| - 1] !in Visited(ks[..|ks| - 1]) && Once(ks[..|ks| - 1])
  }

  /** Visiting the profiles once each, in any order, sums every model's rating times rounds. */
  lemma {:induction false} TallyWeighted(p: map<string, Profile>, ks: seq<string>, m: string)
    requires forall k | k in ks :: k in p
    requires Once(ks)
    ensures GetOr(Tally(p, ks).0, m) == SumSet(Visited(ks), WeightedIn(p, m))
  {
    if ks != [] {
      var init := ks[..|ks| - 1];
      assert forall k | k in init :: k in ks;
      TallyWeighted(p, init, m);
      TallySnoc(p, ks);
      SumSetAdd(Visited(init), WeightedIn(p, m), ks[|ks| - 1]);
    }
  }

  /** Visiting the profiles once each, in any order, sums every model's rounds. */
  lemma {:induction false} TallyGames(p: map<string, Profile>, ks: seq<string>, m: string)
    requires forall k | k in ks :: k in p
    requires Once(ks)
    ensures GetOr(Tally(p, ks).1, m) == SumSet(Visited(ks), RoundsIn(p, m))
  {
    if ks != [] {
      var init := ks[..|ks| - 1];
      assert forall k | k in init :: k in ks;
      TallyGames(p, init, m);
      TallySnoc(p, ks);
      SumSetAdd(Visited(init), RoundsIn(p, m), ks[|ks| - 1]);
    }
  }

  /** The averages the script prints: `total_elo / games` for every model with `games > 0`. */
  function Quotients(weighted: map<string, real>, games: map<string, real>): (r: map<string, real>)
    requires weighted.Keys == games.Keys
    ensures r.Keys == set m | m in games && games[m] > 0.0
  {
    map m | m in weighted && games[m] > 0.0 :: weighted[m] / games[m]
  }

  /** The quotients of the complete sums are the weighted averages. */
  lemma AveragesOfSums(p: map<string, Profile>, weighted: map<string, real>, games: map<string, real>)
    requires weighted.Keys == games.Keys
    requires SumsOver(p, p.Keys, weighted, games)
    ensures Quotients(weighted, games) == WeightedAverages(p)
  {
    var avg, spec := Quotients(weighted, games), WeightedAverages(p);
    forall m | m in games && games[m] > 0.0 ensures m in Models(p) {
      if m !in Models(p) {
        SumSetZero(p.Keys, RoundsIn(p, m));
        assert false;
      }
    }
    forall m | m in spec ensures m in games && GetOr(games, m) == games[m] > 0.0 {
    }
    forall m | m in avg ensures avg[m] == spec[m] {
      assert GetOr(weighted, m) == weighted[m] && GetOr(games, m) == games[m];
    }
    assert avg.Keys == spec.Keys;
  }

  /** The weighted average Elo per model: one pass over the profiles summing rating times
      rounds and rounds per model, then the quotient for every model that played. */
  method WeightedAverage(p: map<string, Profile>) returns (avg: map<string, real>)
    ensures avg == WeightedAverages(p)
  {
    var weighted: map<string, real> := map[];
    var games: map<string, real> := map[];
    var rest := p.Keys;
    ghost var order: seq<string> := [];
    while rest != {}
      invariant rest <= p.Keys
      invariant forall k | k in order :: k in p
      invariant Visited(order) == p.Keys - rest
      invariant Once(order)
      invariant (weighted, games) == Tally(p, order)
      decreases rest
    {
      var q :| q in rest;
      var mid := p[q].model;
      assert (order + [q])[..|order|] == order;
      weighted := weighted[mid := GetOr(weighted, mid) + Weight(p[q])];
      games := games[mid := GetOr(games, mid) + p[q].roundsPlayed as real];
      rest := rest - {q};
      order := order + [q];
    }
    assert Visited(order) == p.Keys;
    forall m ensures GetOr(weighted, m) == SumSet(p.Keys, WeightedIn(p, m))
      && GetOr(games, m) == SumSet(p.Keys, RoundsIn(p, m))
    {
      TallyWeighted(p, order, m);
      TallyGames(p, order, m);
    }
    AveragesOfSums(p, weighted, games);
    avg := Quotients(weighted, games);
  }

  /** The script's `main`: every folder in the order given, then the weighted averages. */
  method Ratings(logs: seq<GameLog>, k: real, startingElo: real, pow10: Exp10)
    returns (r: Result<(map<string, Profile>, map<string, real>)>)
    ensures RunOutcome(logs, k, startingElo, pow10).Fail? ==> r == Fail(RunOutcome(logs, k, startingElo, pow10).error)
    ensures RunOutcome(logs, k, startingElo, pow10).Ok? ==>
      var p := RunOutcome(logs, k, startingElo, pow10).value;
      r == Ok((p, WeightedAverages(p)))
  {
    var cur: map<string, Profile> := map[];
    for i := 0 to |logs|
      invariant RunOutcome(logs[..i], k, startingElo, pow10) == Ok(cur)
    {
      RunOutcomeNext(logs, k, startingElo, pow10, i, cur);
      var next := RateLog(cur, logs[i], k, startingElo, pow10);
      if next.Fail? {
        RunOutcomeStop(logs, k, startingElo, pow10, i + 1);
        return Fail(next.error);
      }
      cur := next.value;
    }
    assert logs[..|logs|] == logs;
    var avg := WeightedAverage(cur);
    return Ok((cur, avg));
  }
}
