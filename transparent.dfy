/** The transparent-setting analysis: per-player win rates over tournament folders, how often
    an agent looked at its opponent's code (per player, and per player and round), the change
    of win rate from the normal to the transparent setting, and the early, mid and late
    access rates. Results are dictionaries whose order the analysis never relies on, so they
    are modelled as maps. */
module Transparent {
  import opened Wrappers
  import opened Text
  import opened Trajectory
  import ThoughtLength

  // ---------------------------------------------------------------- counting rounds

  /** The rounds counted for a key and how many of them were hits (wins, or rounds in which
      the agent accessed the opponent's code). */
  datatype Hits = Hits(hits: nat, total: nat)

  /** A `defaultdict` read: a key never counted has no rounds. */
  function HitsOf<K>(c: map<K, Hits>, k: K): Hits {
    if k in c then c[k] else Hits(0, 0)
  }

  /** One more round for `k`, a hit or not. */
  function Record<K>(c: map<K, Hits>, k: K, hit: bool): map<K, Hits> {
    c[k := Hits(HitsOf(c, k).hits + (if hit then 1 else 0), HitsOf(c, k).total + 1)]
  }

  /** The counts after the rounds `es`, in order. */
  function Tallied<K>(c: map<K, Hits>, es: seq<(K, bool)>): map<K, Hits>
    decreases |es|
  {
    if es == [] then c else Tallied(Record(c, es[0].0, es[0].1), es[1..])
  }

  /** The rounds of `es` counted for `k`. */
  function Occurrences<K(==)>(es: seq<(K, bool)>, k: K): nat {
    if es == [] then 0 else (if es[0].0 == k then 1 else 0) + Occurrences(es[1..], k)
  }

  /** The hits of `es` counted for `k`. */
  function HitOccurrences<K(==)>(es: seq<(K, bool)>, k: K): (n: nat)
    ensures n <= Occurrences(es, k)
  {
    if es == [] then 0 else (if es[0].0 == k && es[0].1 then 1 else 0) + HitOccurrences(es[1..], k)
  }

  lemma {:induction false} TalliedAppend<K>(c: map<K, Hits>, a: seq<(K, bool)>, b: seq<(K, bool)>)
    ensures Tallied(c, a + b) == Tallied(Tallied(c, a), b)
    decreases |a|
  {
    if a == [] {
      assert a + b == b;
    } else {
      assert (a + b)[0] == a[0] && (a + b)[1..] == a[1..] + b;
      TalliedAppend(Record(c, a[0].0, a[0].1), a[1..], b);
    }
  }

  /** Every key is counted once per round of it, hits included, and appears once it has a
      round. */
  lemma {:induction false} TalliedCounts<K>(c: map<K, Hits>, es: seq<(K, bool)>, k: K)
    ensures k in Tallied(c, es) <==> k in c || Occurrences(es, k) > 0
    ensures HitsOf(Tallied(c, es), k) ==
              Hits(HitsOf(c, k).hits + HitOccurrences(es, k), HitsOf(c, k).total + Occurrences(es, k))
    decreases |es|
  {
    if es != [] {
      TalliedCounts(Record(c, es[0].0, es[0].1), es[1..], k);
    }
  }

  /** Counts in which no key has more hits than rounds, and every key has a round. */
  predicate Consistent<K>(c: map<K, Hits>) {
    forall k | k in c :: c[k].hits <= c[k].total && c[k].total > 0
  }

  lemma {:induction false} TalliedConsistent<K>(c: map<K, Hits>, es: seq<(K, bool)>)
    requires Consistent(c)
    ensures Consistent(Tallied(c, es))
    decreases |es|
  {
    if es != [] {
      TalliedConsistent(Record(c, es[0].0, es[0].1), es[1..]);
    }
  }

  /** `hits / total if total > 0 else 0` */
  function Rate(h: Hits): (r: real)
    ensures h.total == 0 ==> r == 0.0
    ensures h.hits <= h.total ==> 0.0 <= r <= 1.0
  {
    if h.total > 0 then
      assert h.hits <= h.total ==> h.hits as real / h.total as real <= 1.0 by {
        if h.hits <= h.total {
          assert h.hits as real <= h.total as real;
        }
      }
      h.hits as real / h.total as real
    else 0.0
  }

  // ---------------------------------------------------------------- win rates

  /** One entry of a tournament's `round_stats`: its key, its winner (if any) and the players
      of its `scores`. */
  datatype RoundStat = RoundStat(key: string, winner: Option<string>, players: seq<string>)

  /** The rounds a round adds: one per player, a hit for the winner. */
  function PlayerRounds(players: seq<string>, winner: Option<string>): seq<(string, bool)> {
    if players == [] then []
    else [(players[0], winner == Some(players[0]))] + PlayerRounds(players[1..], winner)
  }

  /** The "overall" entry is not a round. */
  function RoundEvents(r: RoundStat): seq<(string, bool)> {
    if r.key == "overall" then [] else PlayerRounds(r.players, r.winner)
  }

  function FolderEvents(rounds: seq<RoundStat>): seq<(string, bool)> {
    if rounds == [] then [] else RoundEvents(rounds[0]) + FolderEvents(rounds[1..])
  }

  function WinEvents(folders: seq<seq<RoundStat>>): seq<(string, bool)> {
    if folders == [] then [] else FolderEvents(folders[0]) + WinEvents(folders[1..])
  }

  /** The loop over one round's players. */
  method CountRound(c: map<string, Hits>, r: RoundStat) returns (c': map<string, Hits>)
    ensures c' == Tallied(c, RoundEvents(r))
  {
    c' := c;
    if r.key == "overall" {
      return;
    }
    for i := 0 to |r.players|
      invariant Tallied(c', PlayerRounds(r.players[i..], r.winner)) == Tallied(c, RoundEvents(r))
    {
      assert r.players[i..][0] == r.players[i] && r.players[i..][1..] == r.players[i + 1..];
      var player := r.players[i];
      c' := Record(c', player, r.winner == Some(player));
    }
    assert r.players[|r.players|..] == [];
  }

  /** The loop over one tournament's rounds. */
  method CountFolder(c: map<string, Hits>, rounds: seq<RoundStat>) returns (c': map<string, Hits>)
    ensures c' == Tallied(c, FolderEvents(rounds))
  {
    c' := c;
    for j := 0 to |rounds|
      invariant Tallied(c', FolderEvents(rounds[j..])) == Tallied(c, FolderEvents(rounds))
    {
      assert rounds[j..][0] == rounds[j] && rounds[j..][1..] == rounds[j + 1..];
      TalliedAppend(c', RoundEvents(rounds[j]), FolderEvents(rounds[j + 1..]));
      c' := CountRound(c', rounds[j]);
    }
    assert rounds[|rounds|..] == [];
  }

  /** `compute_win_rates`: every player of a round's scores gets the round, the winner a win;
      the rate is the share of its rounds a player won. */
  method ComputeWinRates(folders: seq<seq<RoundStat>>) returns (rates: map<string, real>)
    ensures forall p :: p in rates <==> Occurrences(WinEvents(folders), p) > 0
    ensures forall p | p in rates ::
              rates[p] == HitOccurrences(WinEvents(folders), p) as real / Occurrences(WinEvents(folders), p) as real
              && 0.0 <= rates[p] <= 1.0
  {
    var counts: map<string, Hits> := map[];
    for i := 0 to |folders|
      invariant Tallied(counts, WinEvents(folders[i..])) == Tallied(map[], WinEvents(folders))
    {
      assert folders[i..][0] == folders[i] && folders[i..][1..] == folders[i + 1..];
      TalliedAppend(counts, FolderEvents(folders[i]), WinEvents(folders[i + 1..]));
      counts := CountFolder(counts, folders[i]);
    }
    assert folders[|folders|..] == [];
    rates := RatesOf(counts);
    RatesOfTally(WinEvents(folders), counts, rates);
  }

  /** The rates of a tally taken from nothing: one per key with a round, each its share of
      hits. */
  lemma RatesOfTally(es: seq<(string, bool)>, counts: map<string, Hits>, rates: map<string, real>)
    requires counts == Tallied(map[], es)
    requires rates == RatesOf(counts)
    ensures forall p :: p in rates <==> Occurrences(es, p) > 0
    ensures forall p | p in rates ::
              rates[p] == HitOccurrences(es, p) as real / Occurrences(es, p) as real
              && 0.0 <= rates[p] <= 1.0
  {
    forall p ensures p in rates <==> Occurrences(es, p) > 0 {
      TalliedCounts(map[], es, p);
    }
    forall p | p in rates
      ensures rates[p] == HitOccurrences(es, p) as real / Occurrences(es, p) as real && 0.0 <= rates[p] <= 1.0
    {
      RateOfTally(es, counts, p);
    }
  }

  /** `{player: wins / total}` over the counted players. */
  function RatesOf(counts: map<string, Hits>): map<string, real> {
    map p | p in counts :: Rate(counts[p])
  }

  lemma RateOfTally(es: seq<(string, bool)>, counts: map<string, Hits>, p: string)
    requires counts == Tallied(map[], es) && p in counts
    ensures Occurrences(es, p) > 0
    ensures Rate(counts[p]) == HitOccurrences(es, p) as real / Occurrences(es, p) as real
    ensures 0.0 <= Rate(counts[p]) <= 1.0
  {
    TalliedCounts(map[], es, p);
    var h := counts[p];
    assert h == Hits(HitOccurrences(es, p), Occurrences(es, p));
    assert h.total > 0 && h.hits <= h.total;
  }

  /** Both settings' win rates for one model, and the change between them. */
  datatype Advantage = Advantage(normal: real, transparent: real, absoluteChange: real, relativeChange: real)

  /** `compute_exploitation_advantage`: one entry per model with a transparent win rate; a
      model missing from the normal setting counts as 0 there. */
  function ExploitationAdvantage(normalWr: map<string, real>, transparentWr: map<string, real>): (r: map<string, Advantage>)
    ensures r.Keys == transparentWr.Keys
  {
    map model | model in transparentWr ::
      var normalRate := if model in normalWr then normalWr[model] else 0.0;
      var transparentRate := transparentWr[model];
      Advantage(normalRate, transparentRate, transparentRate - normalRate,
                if normalRate > 0.0 then (transparentRate - normalRate) / normalRate else 0.0)
  }

  /** The absolute change takes the normal rate to the transparent one; the relative change is
      that change as a share of the normal rate, or 0 without a positive normal rate. */
  lemma ExploitationAdvantageSpec(normalWr: map<string, real>, transparentWr: map<string, real>, model: string)
    requires model in transparentWr
    ensures var a := ExploitationAdvantage(normalWr, transparentWr)[model];
      && a.transparent == transparentWr[model]
      && a.normal == (if model in normalWr then normalWr[model] else 0.0)
      && a.normal + a.absoluteChange == a.transparent
      && (a.normal > 0.0 ==> a.relativeChange * a.normal == a.absoluteChange)
      && (a.normal <= 0.0 ==> a.relativeChange == 0.0)
  {
    var a := ExploitationAdvantage(normalWr, transparentWr)[model];
    if a.normal > 0.0 {
      assert a.relativeChange == a.absoluteChange / a.normal;
    }
  }

  // ---------------------------------------------------------------- opponent-code access

  /** An assistant message whose text mentions the opponents' code base directory. A list
      content never matches: `in` on a list compares whole elements, and its elements are
      dictionaries. */
  predicate MentionsOpponent(m: Message) {
    m.role == Assistant && m.content.Plain?
    && (Contains(m.content.text, "/opponent_codebases/") || Contains(m.content.text, "opponent_codebases"))
  }

  /** The first test adds nothing: a mention of "/opponent_codebases/" is one of
      "opponent_codebases". */
  lemma SlashedMention(s: string)
    ensures Contains(s, "/opponent_codebases/") ==> Contains(s, "opponent_codebases")
  {
    var slashed := "/opponent_codebases/";
    assert slashed[1..19] == "opponent_codebases";
    ContainsInner(s, slashed, 1, 19);
  }

  /** Text holding `p` holds every piece of `p`. */
  lemma ContainsInner(s: string, p: string, i: nat, j: nat)
    requires i <= j <= |p|
    ensures Contains(s, p) ==> Contains(s, p[i..j])
  {
    ContainsIff(s, p);
    ContainsIff(s, p[i..j]);
    if Contains(s, p) {
      var k :| HasAt(s, p, k);
      assert s[k..k + |p|] == p;
      forall t | 0 <= t < j - i ensures s[k + i..k + j][t] == p[i..j][t] {
        assert s[k + i..k + j][t] == s[k + i + t] == s[k..k + |p|][i + t];
      }
      assert k + i + |p[i..j]| == k + j;
      assert HasAt(s, p[i..j], k + i);
    }
  }

  predicate Accessed(msgs: seq<Message>) {
    exists i | 0 <= i < |msgs| :: MentionsOpponent(msgs[i])
  }

  /** The message loop of one trajectory, which stops at the first mention. */
  method AccessedOpponent(messages: seq<Message>) returns (accessedOpponent: bool)
    ensures accessedOpponent == Accessed(messages)
  {
    accessedOpponent := false;
    var i := 0;
    while i < |messages|
      invariant 0 <= i <= |messages|
      invariant !accessedOpponent ==> forall j | 0 <= j < i :: !MentionsOpponent(messages[j])
      invariant accessedOpponent ==> Accessed(messages)
      decreases |messages| - i, !accessedOpponent
    {
      var msg := messages[i];
      if msg.role == Assistant {
        if msg.content.Plain? {
          var content := msg.content.text;
          if Contains(content, "/opponent_codebases/") || Contains(content, "opponent_codebases") {
            accessedOpponent := true;
            assert MentionsOpponent(messages[i]);
            break;
          }
        }
      }
      i := i + 1;
    }
  }

  /** A player's directory inside a tournament folder, with its files. */
  datatype PlayerDir = PlayerDir(name: string, files: seq<ThoughtLength.TrajFile>)

  /** The `*.traj.json` pattern. */
  predicate IsTraj(name: string) {
    |name| >= 10 && name[|name| - 10..] == ".traj.json"
  }

  /** The `*_r*.traj.json` pattern. */
  predicate IsRoundTraj(name: string) {
    IsTraj(name) && Contains(name[..|name| - 10], "_r")
  }

  /** The rounds one player directory adds: one per trajectory, a hit when it accessed the
      opponent's code. */
  function DirEvents(name: string, files: seq<ThoughtLength.TrajFile>): seq<(string, bool)> {
    if files == [] then []
    else if IsTraj(files[0].name) then [(name, Accessed(files[0].messages))] + DirEvents(name, files[1..])
    else DirEvents(name, files[1..])
  }

  function FolderAccessEvents(dirs: seq<PlayerDir>): seq<(string, bool)> {
    if dirs == [] then [] else DirEvents(dirs[0].name, dirs[0].files) + FolderAccessEvents(dirs[1..])
  }

  function AccessEvents(folders: seq<seq<PlayerDir>>): seq<(string, bool)> {
    if folders == [] then [] else FolderAccessEvents(folders[0]) + AccessEvents(folders[1..])
  }

  method CountDir(c: map<string, Hits>, dir: PlayerDir) returns (c': map<string, Hits>)
    ensures c' == Tallied(c, DirEvents(dir.name, dir.files))
  {
    c' := c;
    for k := 0 to |dir.files|
      invariant Tallied(c', DirEvents(dir.name, dir.files[k..])) == Tallied(c, DirEvents(dir.name, dir.files))
    {
      assert dir.files[k..][0] == dir.files[k] && dir.files[k..][1..] == dir.files[k + 1..];
      var trajFile := dir.files[k];
      if IsTraj(trajFile.name) {
        var accessedOpponent := AccessedOpponent(trajFile.messages);
        c' := Record(c', dir.name, accessedOpponent);
      }
    }
    assert dir.files[|dir.files|..] == [];
  }

  method CountAccessFolder(c: map<string, Hits>, dirs: seq<PlayerDir>) returns (c': map<string, Hits>)
    ensures c' == Tallied(c, FolderAccessEvents(dirs))
  {
    c' := c;
    for j := 0 to |dirs|
      invariant Tallied(c', FolderAccessEvents(dirs[j..])) == Tallied(c, FolderAccessEvents(dirs))
    {
      assert dirs[j..][0] == dirs[j] && dirs[j..][1..] == dirs[j + 1..];
      TalliedAppend(c', DirEvents(dirs[j].name, dirs[j].files), FolderAccessEvents(dirs[j + 1..]));
      c' := CountDir(c', dirs[j]);
    }
    assert dirs[|dirs|..] == [];
  }

  datatype AccessRate = AccessRate(rate: real, accessed: nat, total: nat)

  /** `analyze_opponent_code_access`: per player, the trajectories in which it accessed the
      opponent's code, out of all its trajectories. */
  method AnalyzeOpponentCodeAccess(folders: seq<seq<PlayerDir>>) returns (rates: map<string, AccessRate>)
    ensures forall p :: p in rates <==> Occurrences(AccessEvents(folders), p) > 0
    ensures forall p | p in rates ::
              && rates[p].total == Occurrences(AccessEvents(folders), p)
              && rates[p].accessed == HitOccurrences(AccessEvents(folders), p)
              && rates[p].rate == Rate(Hits(rates[p].accessed, rates[p].total))
              && 0.0 <= rates[p].rate <= 1.0
  {
    var accessCounts: map<string, Hits> := map[];
    for i := 0 to |folders|
      invariant Tallied(accessCounts, AccessEvents(folders[i..])) == Tallied(map[], AccessEvents(folders))
    {
      assert folders[i..][0] == folders[i] && folders[i..][1..] == folders[i + 1..];
      TalliedAppend(accessCounts, FolderAccessEvents(folders[i]), AccessEvents(folders[i + 1..]));
      accessCounts := CountAccessFolder(accessCounts, folders[i]);
    }
    assert folders[|folders|..] == [];
    rates := map p | p in accessCounts ::
      AccessRate(Rate(accessCounts[p]), accessCounts[p].hits, accessCounts[p].total);
    forall p ensures p in rates <==> Occurrences(AccessEvents(folders), p) > 0 {
      TalliedCounts(map[], AccessEvents(folders), p);
    }
    forall p | p in rates
      ensures rates[p].total == Occurrences(AccessEvents(folders), p)
      ensures rates[p].accessed == HitOccurrences(AccessEvents(folders), p)
    {
      TalliedCounts(map[], AccessEvents(folders), p);
    }
  }

  // ---------------------------------------------------------------- access by round

  /** The round of a `*_r*.traj.json` file: `int(stem.split("_r")[-1].split(".")[0])`, where
      the stem drops the final ".json"; text that is not a number raises a ValueError. */
  function FileRound(name: string): Result<int>
    requires IsTraj(name)
  {
    match ThoughtLength.TrajRound(name[..|name| - 5])
    case None => Fail(ValueError("invalid literal for int() with base 10"))
    case Some(n) => Ok(n)
  }

  /** The rounds one player directory adds, keyed by player and round, or the error of a file
      whose round is not a number. */
  function DirRoundEvents(name: string, files: seq<ThoughtLength.TrajFile>): Result<seq<((string, int), bool)>> {
    if files == [] then Ok([])
    else if !IsRoundTraj(files[0].name) then DirRoundEvents(name, files[1..])
    else match FileRound(files[0].name)
      case Fail(e) => Fail(e)
      case Ok(r) =>
        match DirRoundEvents(name, files[1..])
        case Fail(e) => Fail(e)
        case Ok(rest) => Ok([((name, r), Accessed(files[0].messages))] + rest)
  }

  /** Two collections in a row: the first error, or both collections' rounds. */
  function Joined(x: Result<seq<((string, int), bool)>>, y: Result<seq<((string, int), bool)>>): Result<seq<((string, int), bool)>> {
    if x.Fail? then Fail(x.error) else if y.Fail? then Fail(y.error) else Ok(x.value + y.value)
  }

  function FolderRoundEvents(dirs: seq<PlayerDir>): Result<seq<((string, int), bool)>> {
    if dirs == [] then Ok([])
    else Joined(DirRoundEvents(dirs[0].name, dirs[0].files), FolderRoundEvents(dirs[1..]))
  }

  function RoundEventsOf(folders: seq<seq<PlayerDir>>): Result<seq<((string, int), bool)>> {
    if folders == [] then Ok([])
    else Joined(FolderRoundEvents(folders[0]), RoundEventsOf(folders[1..]))
  }

  /** The same rounds keyed by round alone. */
  function ByRound(es: seq<((string, int), bool)>): (r: seq<(int, bool)>)
    ensures |r| == |es|
  {
    if es == [] then [] else [(es[0].0.1, es[0].1)] + ByRound(es[1..])
  }

  lemma {:induction false} ByRoundAppend(a: seq<((string, int), bool)>, b: seq<((string, int), bool)>)
    ensures ByRound(a + b) == ByRound(a) + ByRound(b)
    decreases |a|
  {
    if a == [] {
      assert a + b == b;
    } else {
      assert (a + b)[0] == a[0] && (a + b)[1..] == a[1..] + b;
      ByRoundAppend(a[1..], b);
    }
  }

  /** The two tallies of access by round. */
  datatype Temporal = Temporal(byRound: map<int, Hits>, byModelRound: map<(string, int), Hits>)

  function TemporalOf(t: Temporal, es: seq<((string, int), bool)>): Temporal {
    Temporal(Tallied(t.byRound, ByRound(es)), Tallied(t.byModelRound, es))
  }

  lemma TemporalAppend(t: Temporal, a: seq<((string, int), bool)>, b: seq<((string, int), bool)>)
    ensures TemporalOf(t, a + b) == TemporalOf(TemporalOf(t, a), b)
  {
    ByRoundAppend(a, b);
    TalliedAppend(t.byRound, ByRound(a), ByRound(b));
    TalliedAppend(t.byModelRound, a, b);
  }

  /** A tally extended by some rounds, or the error that stopped their collection. */
  function Apply(t: Temporal, r: Result<seq<((string, int), bool)>>): Result<Temporal> {
    if r.Fail? then Fail(r.error) else Ok(TemporalOf(t, r.value))
  }

  /** One trajectory file of a player directory, taken off the front. */
  lemma ApplyStep(t: Temporal, name: string, files: seq<ThoughtLength.TrajFile>)
    requires files != [] && IsRoundTraj(files[0].name)
    ensures FileRound(files[0].name).Fail? ==>
              Apply(t, DirRoundEvents(name, files)) == Fail(FileRound(files[0].name).error)
    ensures FileRound(files[0].name).Ok? ==>
              var round := FileRound(files[0].name).value;
              var hit := Accessed(files[0].messages);
              Apply(t, DirRoundEvents(name, files)) ==
              Apply(Temporal(Record(t.byRound, round, hit), Record(t.byModelRound, (name, round), hit)),
                    DirRoundEvents(name, files[1..]))
  {
    if FileRound(files[0].name).Ok? && DirRoundEvents(name, files[1..]).Ok? {
      var e := ((name, FileRound(files[0].name).value), Accessed(files[0].messages));
      TemporalAppend(t, [e], DirRoundEvents(name, files[1..]).value);
      assert ByRound([e]) == [(e.0.1, e.1)];
    }
  }

  /** The loop over one player directory's `*_r*.traj.json` files. */
  method CountRoundDir(t: Temporal, dir: PlayerDir) returns (r: Result<Temporal>)
    ensures r == Apply(t, DirRoundEvents(dir.name, dir.files))
  {
    var accessByRound, accessByModelRound := t.byRound, t.byModelRound;
    var files := dir.files;
    for k := 0 to |files|
      invariant Apply(Temporal(accessByRound, accessByModelRound), DirRoundEvents(dir.name, files[k..]))
                == Apply(t, DirRoundEvents(dir.name, files))
    {
      assert files[k..][0] == files[k] && files[k..][1..] == files[k + 1..];
      var trajFile := files[k];
      if IsRoundTraj(trajFile.name) {
        ApplyStep(Temporal(accessByRound, accessByModelRound), dir.name, files[k..]);
        var roundNum := FileRound(trajFile.name);
        if roundNum.Fail? {
          return Fail(roundNum.error);
        }
        var accessedOpponent := AccessedOpponent(trajFile.messages);
        accessByRound := Record(accessByRound, roundNum.value, accessedOpponent);
        accessByModelRound := Record(accessByModelRound, (dir.name, roundNum.value), accessedOpponent);
      }
    }
    assert files[|files|..] == [];
    assert ByRound([]) == [];
    return Ok(Temporal(accessByRound, accessByModelRound));
  }

  /** Applying two collections in a row applies the first, then the second. */
  lemma ApplyJoined(t: Temporal, x: Result<seq<((string, int), bool)>>, y: Result<seq<((string, int), bool)>>)
    ensures x.Fail? ==> Apply(t, Joined(x, y)) == Fail(x.error)
    ensures x.Ok? ==> Apply(t, Joined(x, y)) == Apply(TemporalOf(t, x.value), y)
  {
    if x.Ok? && y.Ok? {
      TemporalAppend(t, x.value, y.value);
    }
  }

  /** The loop over one tournament's player directories. */
  method CountRoundFolder(t: Temporal, dirs: seq<PlayerDir>) returns (r: Result<Temporal>)
    ensures r == Apply(t, FolderRoundEvents(dirs))
  {
    var cur := t;
    for j := 0 to |dirs|
      invariant Apply(cur, FolderRoundEvents(dirs[j..])) == Apply(t, FolderRoundEvents(dirs))
    {
      assert dirs[j..][0] == dirs[j] && dirs[j..][1..] == dirs[j + 1..];
      ApplyJoined(cur, DirRoundEvents(dirs[j].name, dirs[j].files), FolderRoundEvents(dirs[j + 1..]));
      var next := CountRoundDir(cur, dirs[j]);
      if next.Fail? {
        return next;
      }
      cur := next.value;
    }
    assert dirs[|dirs|..] == [];
    assert ByRound([]) == [];
    return Ok(cur);
  }

  /** `analyze_temporal_opponent_access`: the trajectories of every round, and of every player
      and round, with those in which the opponent's code was accessed; or the error of the first
      file whose round is not a number. */
  method AnalyzeTemporalOpponentAccess(folders: seq<seq<PlayerDir>>) returns (r: Result<Temporal>)
    ensures RoundEventsOf(folders).Fail? <==> r.Fail?
    ensures r.Fail? ==> r.error == RoundEventsOf(folders).error && r.error.ValueError?
    ensures r.Ok? ==> r.value == TemporalOf(Temporal(map[], map[]), RoundEventsOf(folders).value)
  {
    var cur := Temporal(map[], map[]);
    for i := 0 to |folders|
      invariant Apply(cur, RoundEventsOf(folders[i..])) == Apply(Temporal(map[], map[]), RoundEventsOf(folders))
    {
      assert folders[i..][0] == folders[i] && folders[i..][1..] == folders[i + 1..];
      ApplyJoined(cur, FolderRoundEvents(folders[i]), RoundEventsOf(folders[i + 1..]));
      var next := CountRoundFolder(cur, folders[i]);
      if next.Fail? {
        r := next;
        RoundErrors(folders);
        return;
      }
      cur := next.value;
    }
    assert folders[|folders|..] == [];
    assert ByRound([]) == [];
    r := Ok(cur);
  }

  /** A round collection fails only on a file name whose round is not a number. */
  lemma {:induction false} DirRoundErrors(name: string, files: seq<ThoughtLength.TrajFile>)
    ensures DirRoundEvents(name, files).Fail? ==> DirRoundEvents(name, files).error.ValueError?
    decreases |files|
  {
    if files != [] {
      DirRoundErrors(name, files[1..]);
    }
  }

  lemma {:induction false} FolderRoundErrors(dirs: seq<PlayerDir>)
    ensures FolderRoundEvents(dirs).Fail? ==> FolderRoundEvents(dirs).error.ValueError?
    decreases |dirs|
  {
    if dirs != [] {
      DirRoundErrors(dirs[0].name, dirs[0].files);
      FolderRoundErrors(dirs[1..]);
    }
  }

  lemma {:induction false} RoundErrors(folders: seq<seq<PlayerDir>>)
    ensures RoundEventsOf(folders).Fail? ==> RoundEventsOf(folders).error.ValueError?
    decreases |folders|
  {
    if folders != [] {
      FolderRoundErrors(folders[0]);
      RoundErrors(folders[1..]);
    }
  }

  /** A trajectory named after its round is read as that round, so its collection succeeds. */
  lemma RoundFileRead(player: string, n: nat)
    ensures IsRoundTraj(player + "_r" + NatToString(n) + ".traj.json")
    ensures FileRound(player + "_r" + NatToString(n) + ".traj.json") == Ok(n)
  {
    var x := player + "_r" + NatToString(n);
    RoundTrajName(x, |player|);
    assert ".traj.json" == ".traj" + ".json";
    Halves(x + ".traj", ".json");
    assert x + ".traj.json" == (x + ".traj") + ".json";
    StemRound(player, n);
  }

  /** `<x>.traj.json` matches `*_r*.traj.json` when `x` holds "_r". */
  lemma RoundTrajName(x: string, at: nat)
    requires HasAt(x, "_r", at)
    ensures IsRoundTraj(x + ".traj.json")
  {
    Halves(x, ".traj.json");
    ContainsIff(x, "_r");
  }

  lemma Halves(a: string, b: string)
    ensures (a + b)[..|a|] == a && (a + b)[|a|..] == b
  {
  }

  /** The stem `<player>_r<n>.traj` is read as round `n`. */
  lemma StemRound(player: string, n: nat)
    ensures ThoughtLength.TrajRound(player + "_r" + NatToString(n) + ".traj") == Some(n)
  {
    var d := NatToString(n);
    var suffix := d + ".traj";
    assert '_' !in suffix by {
      forall i | 0 <= i < |suffix| ensures suffix[i] != '_' {
        if i < |d| { assert suffix[i] == d[i]; }
      }
    }
    assert player + "_r" + d + ".traj" == player + "_r" + suffix;
    ThoughtLength.LastMarker(player, suffix);
    ThoughtLength.FirstDot(d, ".traj");
  }

  // ---------------------------------------------------------------- early, mid and late

  /** Two counts together. */
  function Add(a: Hits, b: Hits): Hits {
    Hits(a.hits + b.hits, a.total + b.total)
  }

  /** A player's counts summed over rounds `lo` to `hi`. */
  function BucketHits(c: map<(string, int), Hits>, model: string, lo: int, hi: int): Hits
    decreases hi - lo
  {
    if lo > hi then Hits(0, 0) else Add(HitsOf(c, (model, lo)), BucketHits(c, model, lo + 1, hi))
  }

  /** The rounds of `es` that are `model`'s and fall in rounds `lo` to `hi`. */
  function InBucket(es: seq<((string, int), bool)>, model: string, lo: int, hi: int): Hits {
    if es == [] then Hits(0, 0)
    else
      var e := es[0];
      Add(Delta(e.0, e.1, model, lo, hi), InBucket(es[1..], model, lo, hi))
  }

  /** Consecutive ranges of rounds add up. */
  lemma {:induction false} BucketSplit(c: map<(string, int), Hits>, model: string, lo: int, mid: int, hi: int)
    requires lo <= mid + 1 && mid <= hi
    ensures BucketHits(c, model, lo, hi) == Add(BucketHits(c, model, lo, mid), BucketHits(c, model, mid + 1, hi))
    decreases mid - lo
  {
    if lo <= mid {
      BucketSplit(c, model, lo + 1, mid, hi);
    }
  }

  /** One round, a hit or not, when `counted`; nothing otherwise. */
  function Bump(counted: bool, hit: bool): Hits {
    if counted then Hits(if hit then 1 else 0, 1) else Hits(0, 0)
  }

  /** What one round of key `k` adds to the player's range `lo` to `hi`. */
  function Delta(k: (string, int), hit: bool, model: string, lo: int, hi: int): Hits {
    Bump(k.0 == model && lo <= k.1 <= hi, hit)
  }

  /** One more round for `k` changes only `k`'s counts. */
  lemma HitsOfRecord(c: map<(string, int), Hits>, k: (string, int), hit: bool, q: (string, int))
    ensures HitsOf(Record(c, k, hit), q) == Add(HitsOf(c, q), Bump(q == k, hit))
  {
    if q == k {
      assert Record(c, k, hit)[q] == Hits(HitsOf(c, q).hits + (if hit then 1 else 0), HitsOf(c, q).total + 1);
    } else {
      assert HitsOf(Record(c, k, hit), q) == HitsOf(c, q);
    }
  }

  /** The range's first round, then the rest of it. */
  lemma DeltaSplit(k: (string, int), hit: bool, model: string, lo: int, hi: int)
    requires lo <= hi
    ensures Delta(k, hit, model, lo, hi) == Add(Bump((model, lo) == k, hit), Delta(k, hit, model, lo + 1, hi))
  {
    var b := Bump(true, hit);
    if (model, lo) == k {
      assert Delta(k, hit, model, lo + 1, hi) == Hits(0, 0);
      assert Delta(k, hit, model, lo, hi) == b;
      AddZero(b);
    } else if k.0 == model && lo <= k.1 <= hi {
      assert k.1 != lo;
      assert Delta(k, hit, model, lo + 1, hi) == b;
      assert Delta(k, hit, model, lo, hi) == b;
      ZeroAdd(b);
    } else {
      assert Delta(k, hit, model, lo + 1, hi) == Hits(0, 0);
      assert Delta(k, hit, model, lo, hi) == Hits(0, 0);
      ZeroAdd(Hits(0, 0));
    }
  }

  /** One more round changes a range's counts only when it is the player's and in range. */
  lemma {:induction false} BucketRecord(c: map<(string, int), Hits>, k: (string, int), hit: bool, model: string, lo: int, hi: int)
    ensures BucketHits(Record(c, k, hit), model, lo, hi) == Add(BucketHits(c, model, lo, hi), Delta(k, hit, model, lo, hi))
    decreases hi - lo
  {
    if lo <= hi {
      BucketRecord(c, k, hit, model, lo + 1, hi);
      HitsOfRecord(c, k, hit, (model, lo));
      DeltaSplit(k, hit, model, lo, hi);
      AddShuffle(HitsOf(c, (model, lo)), Bump((model, lo) == k, hit),
                 BucketHits(c, model, lo + 1, hi), Delta(k, hit, model, lo + 1, hi));
    } else {
      assert Delta(k, hit, model, lo, hi) == Hits(0, 0);
    }
  }

  lemma AddZero(a: Hits)
    ensures Add(a, Hits(0, 0)) == a
  {
  }

  lemma ZeroAdd(a: Hits)
    ensures Add(Hits(0, 0), a) == a
  {
  }

  lemma AddShuffle(a: Hits, b: Hits, c: Hits, d: Hits)
    ensures Add(Add(a, b), Add(c, d)) == Add(Add(a, c), Add(b, d))
  {
  }

  /** A range's counts are the trajectories of that player in those rounds, and those of them
      that accessed the opponent's code. */
  lemma {:induction false} BucketTallied(c: map<(string, int), Hits>, es: seq<((string, int), bool)>, model: string, lo: int, hi: int)
    ensures BucketHits(Tallied(c, es), model, lo, hi) == Add(BucketHits(c, model, lo, hi), InBucket(es, model, lo, hi))
    decreases |es|
  {
    if es != [] {
      var c' := Record(c, es[0].0, es[0].1);
      assert Tallied(c, es) == Tallied(c', es[1..]);
      assert InBucket(es, model, lo, hi) == Add(Delta(es[0].0, es[0].1, model, lo, hi), InBucket(es[1..], model, lo, hi));
      BucketRecord(c, es[0].0, es[0].1, model, lo, hi);
      BucketTallied(c', es[1..], model, lo, hi);
      AddAssoc(BucketHits(c, model, lo, hi), Delta(es[0].0, es[0].1, model, lo, hi), InBucket(es[1..], model, lo, hi));
    } else {
      AddZero(BucketHits(c, model, lo, hi));
    }
  }

  lemma AddAssoc(a: Hits, b: Hits, c: Hits)
    ensures Add(Add(a, b), c) == Add(a, Add(b, c))
  {
  }

  lemma {:induction false} InBucketBound(es: seq<((string, int), bool)>, model: string, lo: int, hi: int)
    ensures InBucket(es, model, lo, hi).hits <= InBucket(es, model, lo, hi).total
    decreases |es|
  {
    if es != [] {
      InBucketBound(es[1..], model, lo, hi);
    }
  }

  /** The three periods of one player: its counts and its access rates. */
  datatype Periods = Periods(early: Hits, mid: Hits, late: Hits)

  function PeriodsOf(c: map<(string, int), Hits>, model: string): Periods {
    Periods(BucketHits(c, model, 1, 5), BucketHits(c, model, 6, 10), BucketHits(c, model, 11, 15))
  }

  /** The players with a counted round. */
  function Models(c: map<(string, int), Hits>): set<string> {
    set k | k in c :: k.0
  }

  /** `temporal_data`: every player's early (rounds 1 to 5), mid (6 to 10) and late (11 to 15)
      access counts; the rates are `Rate` of each. */
  function TemporalData(c: map<(string, int), Hits>): (r: map<string, Periods>)
    ensures r.Keys == Models(c)
  {
    map model | model in Models(c) :: PeriodsOf(c, model)
  }

  /** The periods of a tally from nothing count exactly the player's trajectories of those
      rounds. */
  lemma TemporalDataSpec(es: seq<((string, int), bool)>, model: string)
    ensures PeriodsOf(Tallied(map[], es), model) ==
              Periods(InBucket(es, model, 1, 5), InBucket(es, model, 6, 10), InBucket(es, model, 11, 15))
  {
    PeriodCount(es, model, 1, 5);
    PeriodCount(es, model, 6, 10);
    PeriodCount(es, model, 11, 15);
  }

  lemma PeriodCount(es: seq<((string, int), bool)>, model: string, lo: int, hi: int)
    ensures BucketHits(Tallied(map[], es), model, lo, hi) == InBucket(es, model, lo, hi)
    ensures InBucket(es, model, lo, hi).hits <= InBucket(es, model, lo, hi).total
  {
    ZeroBucket(model, lo, hi);
    BucketTallied(map[], es, model, lo, hi);
    ZeroAdd(InBucket(es, model, lo, hi));
    InBucketBound(es, model, lo, hi);
  }

  /** In counts with no more hits than rounds, the access rate of any range of rounds (so of
      the early, mid and late periods) lies in [0, 1]. */
  lemma BucketRate(c: map<(string, int), Hits>, model: string, lo: int, hi: int)
    requires Consistent(c)
    ensures 0.0 <= Rate(BucketHits(c, model, lo, hi)) <= 1.0
  {
    BucketConsistent(c, model, lo, hi);
  }

  lemma {:induction false} BucketConsistent(c: map<(string, int), Hits>, model: string, lo: int, hi: int)
    requires Consistent(c)
    ensures BucketHits(c, model, lo, hi).hits <= BucketHits(c, model, lo, hi).total
    decreases hi - lo
  {
    if lo <= hi {
      BucketConsistent(c, model, lo + 1, hi);
    }
  }

  /** Early, mid and late together are rounds 1 to 15. */
  lemma PeriodsPartition(c: map<(string, int), Hits>, model: string)
    ensures var p := PeriodsOf(c, model);
      Add(Add(p.early, p.mid), p.late) == BucketHits(c, model, 1, 15)
  {
    BucketSplit(c, model, 1, 5, 15);
    BucketSplit(c, model, 6, 10, 15);
    AddAssoc(BucketHits(c, model, 1, 5), BucketHits(c, model, 6, 10), BucketHits(c, model, 11, 15));
  }

  lemma {:induction false} ZeroBucket(model: string, lo: int, hi: int)
    ensures BucketHits(map[], model, lo, hi) == Hits(0, 0)
    decreases hi - lo
  {
    if lo <= hi {
      ZeroBucket(model, lo + 1, hi);
    }
  }
}
