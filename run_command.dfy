/** The shell command line the Halite, BattleCode and RoboCode games build in their
    constructors from the `args` mapping of the game config: a fixed program name followed,
    in mapping order, by one piece per argument. */
module RunCommand {
  import opened Text

  /** A value of the `args` mapping: a boolean, or anything else, which the command shows
      with `str()` (kept here as that text). */
  datatype ArgValue = Switch(on: bool) | Other(text: string)

  /** The piece one argument adds: " <dash><key>" for true, nothing for false, and
      " <dash><key> <value>" for any other value. */
  function Piece(dash: string, key: string, v: ArgValue): string {
    match v
    case Switch(on) => if on then " " + dash + key else ""
    case Other(t) => " " + dash + key + " " + t
  }

  /** The pieces of all arguments, in mapping order. */
  function Pieces(dash: string, args: seq<(string, ArgValue)>): string {
    if args == [] then ""
    else Pieces(dash, args[..|args| - 1]) + Piece(dash, args[|args| - 1].0, args[|args| - 1].1)
  }

  /** The constructor loop: start from the program name and append each argument's piece. */
  method BuildRunCommand(base: string, dash: string, args: seq<(string, ArgValue)>) returns (cmd: string)
    ensures cmd == base + Pieces(dash, args)
  {
    cmd := base;
    for i := 0 to |args|
      invariant cmd == base + Pieces(dash, args[..i])
    {
      PiecesNext(base, dash, args, i);
      cmd := cmd + Piece(dash, args[i].0, args[i].1);
    }
    assert args[..|args|] == args;
  }

  lemma PiecesNext(base: string, dash: string, args: seq<(string, ArgValue)>, i: nat)
    requires i < |args|
    ensures base + Pieces(dash, args[..i + 1]) == base + Pieces(dash, args[..i]) + Piece(dash, args[i].0, args[i].1)
  {
    assert args[..i + 1][..i] == args[..i];
    Assoc3(base, Pieces(dash, args[..i]), Piece(dash, args[i].0, args[i].1));
  }

  // ---------------------------------------------------------------- what the shell sees

  /** The words the program is meant to receive for the arguments. */
  function ArgWords(dash: string, args: seq<(string, ArgValue)>): seq<string> {
    if args == [] then []
    else
      var (key, v) := args[|args| - 1];
      ArgWords(dash, args[..|args| - 1]) +
        match v
        case Switch(on) => if on then [dash + key] else []
        case Other(t) => [dash + key, t]
  }

  /** Every flag and every value is a single non-empty word without spaces. */
  predicate Plain(dash: string, args: seq<(string, ArgValue)>) {
    forall i | 0 <= i < |args| :: IsWord(dash + args[i].0) && (args[i].1.Other? ==> IsWord(args[i].1.text))
  }

  lemma PieceStartsWithSpace(dash: string, key: string, v: ArgValue)
    ensures Piece(dash, key, v) == [] || IsSpace(Piece(dash, key, v)[0])
  {
  }

  lemma {:induction false} PiecesStartWithSpace(dash: string, args: seq<(string, ArgValue)>)
    ensures Pieces(dash, args) == [] || IsSpace(Pieces(dash, args)[0])
  {
    if args != [] {
      var init := args[..|args| - 1];
      PiecesStartWithSpace(dash, init);
      PieceStartsWithSpace(dash, args[|args| - 1].0, args[|args| - 1].1);
    }
  }

  lemma PieceWords(dash: string, key: string, v: ArgValue)
    requires IsWord(dash + key) && (v.Other? ==> IsWord(v.text))
    ensures Words(Piece(dash, key, v)) == match v
      case Switch(on) => if on then [dash + key] else []
      case Other(t) => [dash + key, t]
  {
    match v
    case Switch(on) =>
      if on {
        SwitchOnWords(dash, key);
      } else {
        WordsUnfold("");
      }
    case Other(t) =>
      OtherWords(dash, key, t);
  }

  lemma SwitchOnWords(dash: string, key: string)
    requires IsWord(dash + key)
    ensures Words(" " + dash + key) == [dash + key]
  {
    WordsOfSpacedWord(dash + key);
    Assoc3(" ", dash, key);
  }

  lemma OtherWords(dash: string, key: string, t: string)
    requires IsWord(dash + key) && IsWord(t)
    ensures Words(" " + dash + key + " " + t) == [dash + key, t]
  {
    var flag := dash + key;
    WordsOfSpacedWord(flag);
    WordsOfSpacedWord(t);
    WordsAppend(" " + flag, " " + t);
    Assoc5(" ", dash, key, " ", t);
  }

  lemma Assoc3(p: string, q: string, r: string)
    ensures p + q + r == p + (q + r)
  {
  }

  lemma Assoc5(p: string, q: string, r: string, s: string, t: string)
    ensures p + q + r + s + t == (p + (q + r)) + (s + t)
  {
  }

  /** Splitting the pieces at whitespace gives back exactly the intended flags and values. */
  lemma {:induction false} PiecesWords(dash: string, args: seq<(string, ArgValue)>)
    requires Plain(dash, args)
    ensures Words(Pieces(dash, args)) == ArgWords(dash, args)
  {
    if args == [] {
      WordsUnfold("");
    } else {
      var init := args[..|args| - 1];
      var (key, v) := args[|args| - 1];
      assert Plain(dash, init) by {
        forall i | 0 <= i < |init| ensures IsWord(dash + init[i].0) && (init[i].1.Other? ==> IsWord(init[i].1.text)) {
          assert init[i] == args[i];
        }
      }
      PiecesWords(dash, init);
      PieceStartsWithSpace(dash, key, v);
      PieceWords(dash, key, v);
      WordsAppend(Pieces(dash, init), Piece(dash, key, v));
    }
  }

  /** The whole command reads as the program's own words followed by the argument words. */
  lemma CommandWords(base: string, dash: string, args: seq<(string, ArgValue)>)
    requires Plain(dash, args)
    ensures Words(base + Pieces(dash, args)) == Words(base) + ArgWords(dash, args)
  {
    PiecesStartWithSpace(dash, args);
    WordsAppend(base, Pieces(dash, args));
    PiecesWords(dash, args);
  }

  /** Arguments that are all false switches leave the command as the bare program name. */
  lemma {:induction false} SwitchedOff(dash: string, args: seq<(string, ArgValue)>)
    requires forall i | 0 <= i < |args| :: args[i].1 == Switch(false)
    ensures Pieces(dash, args) == ""
  {
    if args != [] {
      SwitchedOff(dash, args[..|args| - 1]);
    }
  }
}
