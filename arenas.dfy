/** The arena registry of `codeclash/arenas/__init__.py`: eight arena classes, looked up by
    their `name` through a dictionary built from the list. */
module Arenas {
  import opened Wrappers

  datatype Arena = BattleCode | BattleSnake | CoreWar | Dummy | Halite | HuskyBench | RoboCode | RobotRumble

  /** The class attribute `name` of each arena. */
  function Name(a: Arena): string {
    match a
    case BattleCode => "BattleCode"
    case BattleSnake => "BattleSnake"
    case CoreWar => "CoreWar"
    case Dummy => "Dummy"
    case Halite => "Halite"
    case HuskyBench => "HuskyBench"
    case RoboCode => "RoboCode"
    case RobotRumble => "RobotRumble"
  }

  /** `ARENAS`, in the order of the list. */
  const Registered: seq<Arena> := [BattleCode, BattleSnake, CoreWar, Dummy, Halite, HuskyBench, RoboCode, RobotRumble]

  /** `{x.name: x for x in arenas}`: a later entry with the same name replaces an earlier one. */
  function ByName(arenas: seq<Arena>): (m: map<string, Arena>)
    ensures forall a | a in arenas :: Name(a) in m
    ensures forall n | n in m :: m[n] in arenas && Name(m[n]) == n
  {
    if arenas == [] then map[]
    else
      var last := arenas[|arenas| - 1];
      ByName(arenas[..|arenas| - 1])[Name(last) := last]
  }

  /** The section `game` of a tournament config: its `name`, None where missing. */
  datatype GameSection = GameSection(name: Option<string>)

  /** A tournament config: the `game` section (None where missing) and the other sections,
      which the lookup passes on without reading them. */
  datatype Config = Config(game: Option<GameSection>, others: map<string, string>)

  /** A constructed arena: the class chosen and the arguments it received. */
  datatype Instance = Instance(arena: Arena, config: Config, kwargs: map<string, string>)

  /** `get_game`: the arena whose name the config asks for, constructed with the config and
      keyword arguments unchanged; KeyError for a missing key, ValueError for an unknown name. */
  function GetGame(config: Config, kwargs: map<string, string>): (r: Result<Instance>)
    ensures config.game.None? ==> r == Fail(KeyError("game"))
    ensures config.game.Some? && config.game.value.name.None? ==> r == Fail(KeyError("name"))
    ensures config.game.Some? && config.game.value.name.Some? ==>
      var n := config.game.value.name.value;
      && (r.Ok? <==> exists a | a in Registered :: Name(a) == n)
      && (r.Ok? ==> r.value.arena in Registered && Name(r.value.arena) == n
                    && r.value.config == config && r.value.kwargs == kwargs)
      && (r.Fail? ==> r.error == ValueError("Unknown game: " + n))
  {
    if config.game.None? then Fail(KeyError("game"))
    else if config.game.value.name.None? then Fail(KeyError("name"))
    else
      var n := config.game.value.name.value;
      var table := ByName(Registered);
      if n !in table then Fail(ValueError("Unknown game: " + n))
      else Ok(Instance(table[n], config, kwargs))
  }

  /** The registry holds exactly eight arenas with pairwise different names, so every one
      of them is reachable by its name. */
  lemma RegistryExact()
    ensures |Registered| == 8
    ensures forall i, j | 0 <= i < j < |Registered| :: Name(Registered[i]) != Name(Registered[j])
    ensures forall a | a in Registered :: ByName(Registered)[Name(a)] == a
  {
    forall a | a in Registered ensures ByName(Registered)[Name(a)] == a {
      var m := ByName(Registered);
      assert m[Name(a)] in Registered && Name(m[Name(a)]) == Name(a);
      NameInjective(m[Name(a)], a);
    }
  }

  lemma NameInjective(a: Arena, b: Arena)
    requires Name(a) == Name(b)
    ensures a == b
  {
  }
}
