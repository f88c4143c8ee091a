/** The RoboCode game of `codeclash/games/robocode/main.py`: its run command, the battle
    configuration it writes (the defaults merged with the config's `battle` section and
    flattened to `robocode.<path>=<value>` lines), the winner read from the results file,
    and the commands of a round. */
module RoboCode {
  import opened Wrappers
  import opened Text
  import opened RunCommand
  import opened OrderedDict

  // ---------------------------------------------------------------- the constructor

  const RoboProgram: string := "./robocode.sh"

  /** The constructor: the program followed by the config's `args`, each with one dash. */
  method NewGame(args: Option<seq<(string, ArgValue)>>) returns (cmd: string)
    ensures var given := if args.None? then [] else args.value;
      && cmd == RoboProgram + Pieces("-", given)
      && (Plain("-", given) ==> Words(cmd) == Words(RoboProgram) + ArgWords("-", given))
  {
    var given := if args.None? then [] else args.value;
    cmd := BuildRunCommand(RoboProgram, "-", given);
    if Plain("-", given) {
      CommandWords(RoboProgram, "-", given);
    }
  }

  // ---------------------------------------------------------------- configuration values

  /** A configuration value: a dictionary, whose entries keep their insertion order, or
      anything else, kept as the text an f-string shows for it. */
  datatype Value = Leaf(text: string) | Dict(entries: seq<(string, Value)>)

  // ---------------------------------------------------------------- merge_dicts

  /** `merge_dicts(default, user)` over the first `n` entries of the user dictionary `u`:
      a dictionary under a key the default already has is merged into the default's value
      there; any other value is stored under its key. Merging a non-empty dictionary into a
      value that is not one fails. */
  function MergeEntries(d: seq<(string, Value)>, u: Value, n: nat): (r: Result<seq<(string, Value)>>)
    requires u.Dict? && n <= |u.entries|
    decreases u, n
    ensures r.Fail? ==> r.error == TypeError
  {
    if n == 0 then Ok(d)
    else
      match MergeEntries(d, u, n - 1)
      case Fail(e) => Fail(e)
      case Ok(prev) =>
        assert u.entries[n - 1] in u.entries;
        MergeEntry(prev, u.entries[n - 1].0, u.entries[n - 1].1)
  }

  /** One step of the loop of `merge_dicts`: the user's value `v` under key `k`. */
  function MergeEntry(prev: seq<(string, Value)>, k: string, v: Value): (r: Result<seq<(string, Value)>>)
    decreases v, if v.Dict? then |v.entries| + 2 else 0
    ensures r.Fail? ==> r.error == TypeError
  {
    var current := Get(prev, k);
    if v.Dict? && current.Some? then
      match MergeInto(current.value, v)
      case Fail(e) => Fail(e)
      case Ok(merged) => Ok(Put(prev, k, merged))
    else
      Ok(Put(prev, k, v))
  }

  /** One level of `merge_dicts(default, user)` for a default value `d` and a user
      dictionary `u`. */
  function MergeInto(d: Value, u: Value): (r: Result<Value>)
    requires u.Dict?
    decreases u, |u.entries| + 1
    ensures r.Fail? ==> r.error == TypeError
    ensures r.Ok? ==> (r.value.Dict? <==> d.Dict?)
  {
    match d
    case Leaf(_) => if u.entries == [] then Ok(d) else Fail(TypeError)
    case Dict(es) =>
      match MergeEntries(es, u, |u.entries|)
      case Fail(e) => Fail(e)
      case Ok(merged) => Ok(Dict(merged))
  }

  /** The whole merge of the user entries `u` into the default entries `d`. */
  function Merge(d: seq<(string, Value)>, u: seq<(string, Value)>): Result<seq<(string, Value)>> {
    MergeEntries(d, Dict(u), |u|)
  }

  lemma MergeUnfold(d: seq<(string, Value)>, u: Value, n: nat)
    requires u.Dict? && 0 < n <= |u.entries| && MergeEntries(d, u, n).Ok?
    ensures MergeEntries(d, u, n - 1).Ok?
    ensures MergeEntries(d, u, n) == MergeEntry(MergeEntries(d, u, n - 1).value, u.entries[n - 1].0, u.entries[n - 1].1)
  {
  }

  /** Keys the user leaves out keep the default's value (or stay absent). */
  lemma {:induction false} MergeKeepsDefault(d: seq<(string, Value)>, u: Value, n: nat, k: string)
    requires u.Dict? && n <= |u.entries| && MergeEntries(d, u, n).Ok?
    requires forall i | 0 <= i < n :: u.entries[i].0 != k
    ensures Get(MergeEntries(d, u, n).value, k) == Get(d, k)
  {
    if n > 0 {
      MergeUnfold(d, u, n);
      MergeKeepsDefault(d, u, n - 1, k);
      StepElsewhere(MergeEntries(d, u, n - 1).value, u.entries[n - 1].0, u.entries[n - 1].1, k);
    }
  }

  /** A step leaves every other key as it was. */
  lemma StepElsewhere(prev: seq<(string, Value)>, k0: string, v: Value, k: string)
    requires MergeEntry(prev, k0, v).Ok? && k != k0
    ensures Get(MergeEntry(prev, k0, v).value, k) == Get(prev, k)
  {
    var current := Get(prev, k0);
    if v.Dict? && current.Some? {
      PutGet(prev, k0, MergeInto(current.value, v).value, k);
    } else {
      PutGet(prev, k0, v, k);
    }
  }

  /** A step stores the user's value under its key, merged into the current dictionary
      there when both are dictionaries. */
  lemma StepHere(prev: seq<(string, Value)>, k: string, v: Value)
    requires MergeEntry(prev, k, v).Ok?
    ensures v.Dict? && Get(prev, k).Some? ==>
      MergeInto(Get(prev, k).value, v).Ok? && Get(MergeEntry(prev, k, v).value, k) == Some(MergeInto(Get(prev, k).value, v).value)
    ensures !(v.Dict? && Get(prev, k).Some?) ==> Get(MergeEntry(prev, k, v).value, k) == Some(v)
  {
    var current := Get(prev, k);
    if v.Dict? && current.Some? {
      PutGet(prev, k, MergeInto(current.value, v).value, k);
    } else {
      PutGet(prev, k, v, k);
    }
  }

  /** A user value that is not a dictionary, or one the default has nothing under its key
      for, replaces or adds the value under that key. */
  lemma {:induction false} MergeStores(d: seq<(string, Value)>, u: Value, n: nat, i: nat)
    requires u.Dict? && i < n <= |u.entries| && UniqueKeys(u.entries) && MergeEntries(d, u, n).Ok?
    requires !(u.entries[i].1.Dict? && Get(d, u.entries[i].0).Some?)
    ensures Get(MergeEntries(d, u, n).value, u.entries[i].0) == Some(u.entries[i].1)
  {
    MergeUnfold(d, u, n);
    var prev := MergeEntries(d, u, n - 1).value;
    if i == n - 1 {
      MergeKeepsDefault(d, u, n - 1, u.entries[i].0);
      StepHere(prev, u.entries[i].0, u.entries[i].1);
    } else {
      MergeStores(d, u, n - 1, i);
      StepElsewhere(prev, u.entries[n - 1].0, u.entries[n - 1].1, u.entries[i].0);
    }
  }

  /** A user dictionary under a key the default has is merged into the default's value. */
  lemma {:induction false} MergeNests(d: seq<(string, Value)>, u: Value, n: nat, i: nat)
    requires u.Dict? && i < n <= |u.entries| && UniqueKeys(u.entries) && MergeEntries(d, u, n).Ok?
    requires u.entries[i].1.Dict? && Get(d, u.entries[i].0).Some?
    ensures MergeInto(Get(d, u.entries[i].0).value, u.entries[i].1).Ok?
    ensures Get(MergeEntries(d, u, n).value, u.entries[i].0) == Some(MergeInto(Get(d, u.entries[i].0).value, u.entries[i].1).value)
  {
    MergeUnfold(d, u, n);
    var prev := MergeEntries(d, u, n - 1).value;
    if i == n - 1 {
      MergeKeepsDefault(d, u, n - 1, u.entries[i].0);
      StepHere(prev, u.entries[i].0, u.entries[i].1);
    } else {
      MergeNests(d, u, n - 1, i);
      StepElsewhere(prev, u.entries[n - 1].0, u.entries[n - 1].1, u.entries[i].0);
    }
  }

  /** With nothing to merge into, the user's dictionary is taken as it is. */
  lemma {:induction false} MergeIntoNothing(u: Value, n: nat)
    requires u.Dict? && n <= |u.entries| && UniqueKeys(u.entries)
    ensures MergeEntries([], u, n) == Ok(u.entries[..n])
  {
    if n > 0 {
      MergeIntoNothing(u, n - 1);
      var pre := u.entries[..n - 1];
      var (k, v) := u.entries[n - 1];
      FindSpec(pre, k);
      assert k !in KeysOf(pre);
      assert u.entries[..n] == pre + [(k, v)];
    }
  }

  /** The merge keeps the default's keys, in their order, at the front. */
  lemma {:induction false} MergeKeepsOrder(d: seq<(string, Value)>, u: Value, n: nat)
    requires u.Dict? && n <= |u.entries| && MergeEntries(d, u, n).Ok?
    ensures |KeysOf(d)| <= |KeysOf(MergeEntries(d, u, n).value)|
    ensures KeysOf(MergeEntries(d, u, n).value)[..|d|] == KeysOf(d)
  {
    if n > 0 {
      MergeUnfold(d, u, n);
      MergeKeepsOrder(d, u, n - 1);
      var prev := MergeEntries(d, u, n - 1).value;
      var (k, v) := u.entries[n - 1];
      var current := Get(prev, k);
      if v.Dict? && current.Some? {
        PutKeys(prev, k, MergeInto(current.value, v).value);
      } else {
        PutKeys(prev, k, v);
      }
    }
  }

  // ---------------------------------------------------------------- dict_to_lines

  /** The line of one setting: `robocode.<path>=<value>`. */
  function Setting(path: string, value: string): string {
    "robocode." + path + "=" + value
  }

  /** The lines `dict_to_lines` appends for the first `n` entries of the dictionary `v`
      under the key prefix `prefix`: one `robocode.<prefix><key>=<value>` line per value
      that is not a dictionary, and the lines of each nested dictionary under
      `<prefix><key>.`, in entry order. */
  function FlattenEntries(v: Value, n: nat, prefix: string): seq<string>
    requires v.Dict? && n <= |v.entries|
    decreases v, n
  {
    if n == 0 then []
    else
      var (k, w) := v.entries[n - 1];
      assert v.entries[n - 1] in v.entries;
      FlattenEntries(v, n - 1, prefix) + FlattenEntry(k, w, prefix)
  }

  /** The lines of one entry. */
  function FlattenEntry(k: string, w: Value, prefix: string): seq<string>
    decreases w, if w.Dict? then |w.entries| + 1 else 0
  {
    if w.Dict? then FlattenEntries(w, |w.entries|, prefix + k + ".")
    else [Setting(prefix + k, w.text)]
  }

  /** The number of values that are not dictionaries, at any depth. */
  function LeafCount(v: Value, n: nat): nat
    requires v.Dict? && n <= |v.entries|
    decreases v, n
  {
    if n == 0 then 0
    else
      assert v.entries[n - 1] in v.entries;
      var w := v.entries[n - 1].1;
      LeafCount(v, n - 1) + (if w.Dict? then LeafCount(w, |w.entries|) else 1)
  }

  /** One line per value that is not a dictionary. */
  lemma {:induction false} FlattenCount(v: Value, n: nat, prefix: string)
    requires v.Dict? && n <= |v.entries|
    ensures |FlattenEntries(v, n, prefix)| == LeafCount(v, n)
    decreases v, n
  {
    if n > 0 {
      var (k, w) := v.entries[n - 1];
      assert v.entries[n - 1] in v.entries;
      FlattenCount(v, n - 1, prefix);
      if w.Dict? {
        FlattenCount(w, |w.entries|, prefix + k + ".");
      }
    }
  }

  predicate Begins(line: string, head: string) {
    |head| <= |line| && line[..|head|] == head
  }

  /** Every line names a setting under `robocode.<prefix>`. */
  lemma {:induction false} FlattenBegins(v: Value, n: nat, prefix: string)
    requires v.Dict? && n <= |v.entries|
    ensures forall line | line in FlattenEntries(v, n, prefix) :: Begins(line, "robocode." + prefix)
    decreases v, n
  {
    if n > 0 {
      var (k, w) := v.entries[n - 1];
      assert v.entries[n - 1] in v.entries;
      FlattenBegins(v, n - 1, prefix);
      var p := "robocode." + prefix;
      if w.Dict? {
        var q := prefix + k + ".";
        FlattenBegins(w, |w.entries|, q);
        assert "robocode." + q == p + (k + ".");
        forall line | line in FlattenEntry(k, w, prefix) ensures Begins(line, p) {
          assert Begins(line, p + (k + "."));
          assert line[..|p|] == line[..|p + (k + ".")|][..|p|];
        }
      } else {
        assert Setting(prefix + k, w.text) == p + (k + "=" + w.text);
      }
    }
  }

  /** Keys and values written without line breaks, at any depth. */
  predicate OneLineEntries(v: Value, n: nat)
    requires v.Dict? && n <= |v.entries|
    decreases v, n
  {
    n == 0 || (
      assert v.entries[n - 1] in v.entries;
      var (k, w) := v.entries[n - 1];
      && OneLineEntries(v, n - 1)
      && '\n' !in k
      && (if w.Dict? then OneLineEntries(w, |w.entries|) else '\n' !in w.text))
  }

  /** Then every setting is a line of its own. */
  lemma {:induction false} FlattenOneLine(v: Value, n: nat, prefix: string)
    requires v.Dict? && n <= |v.entries| && OneLineEntries(v, n) && '\n' !in prefix
    ensures forall line | line in FlattenEntries(v, n, prefix) :: '\n' !in line
    decreases v, n
  {
    if n > 0 {
      var (k, w) := v.entries[n - 1];
      assert v.entries[n - 1] in v.entries;
      FlattenOneLine(v, n - 1, prefix);
      if w.Dict? {
        FlattenOneLine(w, |w.entries|, prefix + k + ".");
      } else {
        assert '\n' !in prefix + k;
        SettingOneLine(prefix + k, w.text);
      }
    }
  }

  lemma SettingOneLine(path: string, value: string)
    requires '\n' !in path && '\n' !in value
    ensures '\n' !in Setting(path, value)
  {
    var line := Setting(path, value);
    forall i | 0 <= i < |line| ensures line[i] != '\n' {
      if i < 9 {
        assert line[i] == "robocode."[i];
      } else if i < 9 + |path| {
        assert line[i] == path[i - 9];
      } else if i > 9 + |path| {
        assert line[i] == value[i - 10 - |path|];
      }
    }
  }

  /** `dict_to_lines(d, prefix)`: walks the entries in order, appending a line for each
      value that is not a dictionary and recursing into each one that is. */
  method DictToLines(v: Value, prefix: string, lines: seq<string>) returns (out: seq<string>)
    requires v.Dict?
    ensures out == lines + FlattenEntries(v, |v.entries|, prefix)
    decreases v
  {
    out := lines;
    for i := 0 to |v.entries|
      invariant out == lines + FlattenEntries(v, i, prefix)
    {
      var (k, w) := v.entries[i];
      assert v.entries[i] in v.entries;
      if w.Dict? {
        out := DictToLines(w, prefix + k + ".", out);
      } else {
        out := out + [Setting(prefix + k, w.text)];
      }
    }
  }

  // ---------------------------------------------------------------- _get_battle_config

  const Header: string := "#Battle Properties"

  /** The built-in battle settings: ten rounds, gun cooling rate 0.1, an inactivity time of
      450 with enemy names hidden, and an 800 by 600 battlefield. */
  const DefaultBattle: seq<(string, Value)> := [
    ("battle", Dict([
      ("numRounds", Leaf("10")),
      ("gunCoolingRate", Leaf("0.1")),
      ("rules", Dict([("inactivityTime", Leaf("450")), ("hideEnemyNames", Leaf("True"))]))])),
    ("battleField", Dict([("width", Leaf("800")), ("height", Leaf("600"))]))]

  /** The lines of the configuration: the header, then one line per setting. */
  function BattleLines(merged: seq<(string, Value)>): seq<string> {
    [Header] + FlattenEntries(Dict(merged), |merged|, "")
  }

  /** The configuration text for the config's `battle` section `user`. */
  function BattleConfig(user: seq<(string, Value)>): Result<string> {
    match Merge(DefaultBattle, user)
    case Fail(e) => Fail(e)
    case Ok(merged) => Ok(Join(BattleLines(merged), "\n"))
  }

  /** `_get_battle_config`: merge the section into the defaults, then flatten the result
      below the header line. */
  method GetBattleConfig(user: seq<(string, Value)>) returns (r: Result<string>)
    ensures r == BattleConfig(user)
    ensures r.Fail? <==> Merge(DefaultBattle, user).Fail?
    ensures r.Fail? ==> r.error == TypeError
  {
    var merged := Merge(DefaultBattle, user);
    if merged.Fail? {
      return Fail(merged.error);
    }
    var lines := DictToLines(Dict(merged.value), "", [Header]);
    r := Ok(Join(lines, "\n"));
  }

  const DefaultSection: Value := DefaultBattle[0].1
  const DefaultField: Value := DefaultBattle[1].1

  const DefaultRules: Value := DefaultSection.entries[2].1

  lemma RulesLines()
    ensures FlattenEntries(DefaultRules, 2, "battle.rules.") == [
      Setting("battle.rules.inactivityTime", "450"),
      Setting("battle.rules.hideEnemyNames", "True")]
  {
    assert "battle.rules." + "inactivityTime" == "battle.rules.inactivityTime";
    assert "battle.rules." + "hideEnemyNames" == "battle.rules.hideEnemyNames";
  }

  lemma SectionLines()
    ensures FlattenEntries(DefaultSection, 3, "battle.") == [
      Setting("battle.numRounds", "10"),
      Setting("battle.gunCoolingRate", "0.1"),
      Setting("battle.rules.inactivityTime", "450"),
      Setting("battle.rules.hideEnemyNames", "True")]
  {
    assert "battle." + "rules" + "." == "battle.rules.";
    assert "battle." + "numRounds" == "battle.numRounds";
    assert "battle." + "gunCoolingRate" == "battle.gunCoolingRate";
    RulesLines();
    assert FlattenEntries(DefaultSection, 2, "battle.") == [
      Setting("battle.numRounds", "10"), Setting("battle.gunCoolingRate", "0.1")];
  }

  lemma FieldLines()
    ensures FlattenEntries(DefaultField, 2, "battleField.") == [
      Setting("battleField.width", "800"),
      Setting("battleField.height", "600")]
  {
    assert "battleField." + "width" == "battleField.width";
    assert "battleField." + "height" == "battleField.height";
  }

  /** Without a `battle` section the configuration is the six default settings. */
  lemma DefaultConfig()
    ensures BattleConfig([]) == Ok(Join([
      Header,
      Setting("battle.numRounds", "10"),
      Setting("battle.gunCoolingRate", "0.1"),
      Setting("battle.rules.inactivityTime", "450"),
      Setting("battle.rules.hideEnemyNames", "True"),
      Setting("battleField.width", "800"),
      Setting("battleField.height", "600")], "\n"))
  {
    assert Merge(DefaultBattle, []) == Ok(DefaultBattle);
    var top := Dict(DefaultBattle);
    SectionLines();
    FieldLines();
    assert "" + "battle" + "." == "battle.";
    assert "" + "battleField" + "." == "battleField.";
    assert FlattenEntries(top, 1, "") == FlattenEntries(DefaultSection, 3, "battle.");
    assert FlattenEntries(top, 2, "") == FlattenEntries(DefaultSection, 3, "battle.") + FlattenEntries(DefaultField, 2, "battleField.");
    assert BattleLines(DefaultBattle) == [
      Header,
      Setting("battle.numRounds", "10"),
      Setting("battle.gunCoolingRate", "0.1"),
      Setting("battle.rules.inactivityTime", "450"),
      Setting("battle.rules.hideEnemyNames", "True"),
      Setting("battleField.width", "800"),
      Setting("battleField.height", "600")];
  }

  /** When no key or value of the merged settings holds a line break, the configuration
      splits back into its header and one line per setting. */
  lemma ConfigLines(user: seq<(string, Value)>)
    requires Merge(DefaultBattle, user).Ok?
    requires OneLineEntries(Dict(Merge(DefaultBattle, user).value), |Merge(DefaultBattle, user).value|)
    ensures BattleConfig(user).Ok?
    ensures Split(BattleConfig(user).value, '\n') == BattleLines(Merge(DefaultBattle, user).value)
  {
    var merged := Merge(DefaultBattle, user).value;
    FlattenOneLine(Dict(merged), |merged|, "");
    JoinSplit(BattleLines(merged), '\n');
  }

  // ---------------------------------------------------------------- determine_winner

  /** The second line of the stripped results, or nothing when there is none. */
  function WinnerLine(resultOutput: string): string {
    var lines := Split(Strip(resultOutput), '\n');
    if |lines| >= 2 then lines[1] else ""
  }

  /** `determine_winner`: the second word of the second line up to its last dot, or
      "unknown" when that line is missing or empty; a line of one word fails on the index. */
  function DetermineWinner(resultOutput: string): (r: Result<string>)
    ensures r.Fail? ==> r.error == IndexError
  {
    var line := WinnerLine(resultOutput);
    if line == "" then Ok("unknown")
    else
      var ws := Words(line);
      if |ws| < 2 then Fail(IndexError) else Ok(BeforeLast(ws[1], "."))
  }

  /** Results of one line name nobody. */
  lemma OneLineUnknown(resultOutput: string)
    requires '\n' !in Strip(resultOutput)
    ensures DetermineWinner(resultOutput) == Ok("unknown")
  {
    assert IndexOf(Strip(resultOutput), '\n').None?;
  }

  /** The results table names each robot as `<agent>.MyTank*` in its second column; the
      winner read from the first row after the heading is that row's agent, whatever dots
      the agent's name holds. */
  lemma TableWinner(resultOutput: string, heading: string, ws: seq<string>, rest: seq<string>, agent: string)
    requires Strip(resultOutput) == Join([heading, Join(ws, " ")] + rest, "\n")
    requires '\n' !in heading && forall line | line in rest :: '\n' !in line
    requires |ws| >= 2 && ws[1] == agent + ".MyTank*"
    requires forall w | w in ws :: IsWord(w) && '\n' !in w
    ensures DetermineWinner(resultOutput) == Ok(agent)
  {
    var row := Join(ws, " ");
    JoinAvoids(ws, " ", '\n');
    var lines := [heading, row] + rest;
    JoinSplit(lines, '\n');
    assert WinnerLine(resultOutput) == row;
    JoinWords(ws);
    MyTankSuffix(agent);
  }

  // ---------------------------------------------------------------- execute_round

  /** The four commands that bring an agent's robots into the game and compile them. */
  function SetupCommands(agent: string): seq<string> {
    [ "mkdir -p robots/" + agent,
      "cp -r /" + agent + "/robots/custom/* robots/" + agent + "/",
      "find robots/" + agent + "/ -name '*.java' -exec sed -i 's/custom/" + agent + "/g' {} +",
      "javac -cp \"libs/robocode.jar\" robots/" + agent + "/*.java" ]
  }

  /** The set-up commands of all agents, in agent order. */
  function AllSetup(agents: seq<string>): seq<string> {
    if agents == [] then [] else AllSetup(agents[..|agents| - 1]) + SetupCommands(agents[|agents| - 1])
  }

  /** Command `4 * i + j` of the set-up is agent `i`'s command `j`. */
  lemma {:induction false} AllSetupAt(agents: seq<string>, i: nat, j: nat)
    requires i < |agents| && j < 4
    ensures |AllSetup(agents)| == 4 * |agents|
    ensures AllSetup(agents)[4 * i + j] == SetupCommands(agents[i])[j]
  {
    var n := |agents|;
    var init := agents[..n - 1];
    if i < n - 1 {
      AllSetupAt(init, i, j);
      assert init[i] == agents[i];
    } else if n > 1 {
      AllSetupAt(init, 0, 0);
    }
  }

  /** The robots the battle selects: every agent's `MyTank` classes, comma-separated. */
  function RobotPatterns(agents: seq<string>): (r: seq<string>)
    ensures |r| == |agents|
  {
    if agents == [] then [] else RobotPatterns(agents[..|agents| - 1]) + [agents[|agents| - 1] + ".MyTank*"]
  }

  function SelectedRobots(agents: seq<string>): string {
    Join(RobotPatterns(agents), ",")
  }

  /** Pattern `i` names agent `i`. */
  lemma {:induction false} RobotPatternAt(agents: seq<string>, i: nat)
    requires i < |agents|
    ensures RobotPatterns(agents)[i] == agents[i] + ".MyTank*"
  {
    if i < |agents| - 1 {
      RobotPatternAt(agents[..|agents| - 1], i);
    }
  }

  /** The text of `<agent>.MyTank*` before its last dot is the agent. */
  lemma MyTankSuffix(agent: string)
    ensures BeforeLast(agent + ".MyTank*", ".") == agent
  {
    assert ".MyTank*" == ['.'] + "MyTank*";
    assert agent + ".MyTank*" == agent + ['.'] + "MyTank*";
    BeforeLastChar(agent, '.', "MyTank*");
  }

  /** A character in no agent's name and not in the `MyTank` suffix is in no pattern. */
  lemma {:induction false} PatternsAvoid(agents: seq<string>, c: char)
    requires forall a | a in agents :: c !in a
    requires c !in ".MyTank*"
    ensures forall p | p in RobotPatterns(agents) :: c !in p
  {
    if agents != [] {
      var init := agents[..|agents| - 1];
      assert forall a | a in init :: a in agents;
      PatternsAvoid(init, c);
      assert agents[|agents| - 1] in agents;
    }
  }

  /** With no comma in any agent's name, the selection splits back into one pattern per
      agent. */
  lemma SelectedRobotsSplit(agents: seq<string>)
    requires agents != []
    requires forall a | a in agents :: ',' !in a
    ensures Split(SelectedRobots(agents), ',') == RobotPatterns(agents)
  {
    PatternsAvoid(agents, ',');
    JoinSplit(RobotPatterns(agents), ',');
  }

  /** Each pattern, up to its last dot, is its agent. */
  lemma PatternAgent(agents: seq<string>, i: nat)
    requires i < |agents|
    ensures BeforeLast(RobotPatterns(agents)[i], ".") == agents[i]
  {
    RobotPatternAt(agents, i);
    MyTankSuffix(agents[i]);
  }

  /** The `.battle` file: a header, the configuration (which carries a header of its own),
      and the robot selection, ending with a line break. */
  function BattleText(config: string, agents: seq<string>): string {
    Header + "\n" + config + "\n" + Setting("battle.selectedRobots", SelectedRobots(agents)) + "\n"
  }

  /** A text of the shape `h\n<lines>\n<last>\n` as a join of lines. */
  lemma FrameJoin(h: string, lines: seq<string>, last: string)
    requires lines != []
    ensures h + "\n" + Join(lines, "\n") + "\n" + last + "\n" == Join([h] + lines + [last, ""], "\n")
  {
    var tail := [last, ""];
    JoinAppend([h] + lines, tail, "\n");
    JoinAppend([h], lines, "\n");
    JoinCons(tail, "\n");
  }

  /** Line by line, the file holds the header twice, then the settings, then the
      selection, then nothing after the final line break. */
  lemma BattleTextLines(user: seq<(string, Value)>, agents: seq<string>)
    requires Merge(DefaultBattle, user).Ok?
    requires OneLineEntries(Dict(Merge(DefaultBattle, user).value), |Merge(DefaultBattle, user).value|)
    requires forall a | a in agents :: '\n' !in a
    ensures BattleConfig(user).Ok?
    ensures Split(BattleText(BattleConfig(user).value, agents), '\n') ==
      [Header] + BattleLines(Merge(DefaultBattle, user).value) + [Setting("battle.selectedRobots", SelectedRobots(agents)), ""]
  {
    var merged := Merge(DefaultBattle, user).value;
    var lines := BattleLines(merged);
    var sel := Setting("battle.selectedRobots", SelectedRobots(agents));
    FrameJoin(Header, lines, sel);
    FlattenOneLine(Dict(merged), |merged|, "");
    PatternsAvoid(agents, '\n');
    JoinAvoids(RobotPatterns(agents), ",", '\n');
    SettingOneLine("battle.selectedRobots", SelectedRobots(agents));
    var all := [Header] + lines + [sel, ""];
    assert forall p | p in all :: '\n' !in p;
    JoinSplit(all, '\n');
  }

  /** The loop over the agents that issues their set-up commands. */
  method SetUpAgents(agents: seq<string>) returns (cmds: seq<string>)
    ensures cmds == AllSetup(agents)
  {
    cmds := [];
    for i := 0 to |agents|
      invariant cmds == AllSetup(agents[..i])
    {
      assert agents[..i + 1][..i] == agents[..i];
      cmds := cmds + SetupCommands(agents[i]);
    }
    assert agents[..|agents|] == agents;
  }

  function BattleFileName(gameId: string, time: int): string {
    gameId + "-battle" + IntToString(time) + ".battle"
  }

  function ResultsFileName(time: int): string {
    "results_" + IntToString(time) + ".txt"
  }

  function BattleCommand(runCmd: string, battleFile: string, resultsFile: string): string {
    runCmd + " -battle " + battleFile + " -results " + resultsFile
  }

  /** `execute_round`: set up every agent, write the `.battle` file (returned as its name and
      text), run the battle into a results file, read the file back and remove it. The two
      clock readings are parameters. A configuration that cannot be merged stops the round
      after the set-up; a non-zero return code of the battle fails the assertion. */
  method ExecuteRound(agents: seq<string>, runCmd: string, gameId: string, user: seq<(string, Value)>,
                      time1: int, time2: int, returncode: int, logOutput: string, resultOutput: string)
    returns (cmds: seq<string>, battle: Option<(string, string)>, r: Result<(string, string)>)
    ensures |AllSetup(agents)| <= |cmds| && cmds[..|AllSetup(agents)|] == AllSetup(agents)
    ensures BattleConfig(user).Fail? ==> cmds == AllSetup(agents) && battle == None && r == Fail(TypeError)
    ensures BattleConfig(user).Ok? ==>
      var battleFile := BattleFileName(gameId, time1);
      var resultsFile := ResultsFileName(time2);
      && battle == Some((battleFile, BattleText(BattleConfig(user).value, agents)))
      && (returncode != 0 ==> cmds == AllSetup(agents) + [BattleCommand(runCmd, battleFile, resultsFile)] && r == Fail(AssertionError))
      && (returncode == 0 ==>
          && cmds == AllSetup(agents) + [BattleCommand(runCmd, battleFile, resultsFile), "cat " + resultsFile, "rm -f " + resultsFile]
          && r == Ok((logOutput, resultOutput)))
  {
    cmds := SetUpAgents(agents);
    var config := GetBattleConfig(user);
    if config.Fail? {
      return cmds, None, Fail(config.error);
    }
    var battleFile := BattleFileName(gameId, time1);
    battle := Some((battleFile, BattleText(config.value, agents)));
    var resultsFile := ResultsFileName(time2);
    cmds := cmds + [BattleCommand(runCmd, battleFile, resultsFile)];
    if returncode != 0 {
      return cmds, battle, Fail(AssertionError);
    }
    cmds := cmds + ["cat " + resultsFile, "rm -f " + resultsFile];
    r := Ok((logOutput, resultOutput));
  }
}
