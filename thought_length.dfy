/** The thought-length chart: the number of words between an assistant message's
    "THOUGHT:" and its "```bash", collected per round for rounds 1 to 15 and averaged with
    the 99% trimmed mean. */
module ThoughtLength {
  import opened Wrappers
  import opened Text
  import opened TrimmedMean
  import opened Trajectory

  const Rounds: nat := 15

  // ---------------------------------------------------------------- the THOUGHT pattern

  /** `c` matches the lower-case pattern character `p` under IGNORECASE: upper-case ASCII
      letters fold to lower case, and the long s (U+017F) matches `s`. */
  predicate CiChar(c: char, p: char) {
    Lower(c) == p || (p == 's' && c == 'ſ')
  }

  /** The lower-case pattern `p` occurs in `s` at `k`, ignoring case. */
  predicate CiAt(s: string, p: string, k: int) {
    0 <= k && k + |p| <= |s| && forall i | 0 <= i < |p| :: CiChar(s[k + i], p[i])
  }

  /** The first case-insensitive occurrence of `p` at or after `from`. */
  function FirstCi(s: string, p: string, from: nat): (r: Option<nat>)
    decreases |s| - from
    ensures r.Some? ==> from <= r.value && CiAt(s, p, r.value)
    ensures r.Some? ==> forall j | from <= j < r.value :: !CiAt(s, p, j)
    ensures r.None? ==> forall j | from <= j :: !CiAt(s, p, j)
  {
    if from + |p| > |s| then None
    else if CiAt(s, p, from) then Some(from)
    else FirstCi(s, p, from + 1)
  }

  /** `THOUGHT:(.+?)```bash` matches from `k` with its closing "```bash" at `j`: at least one
      character (any, newlines included) lies between the two. */
  predicate ThoughtMatch(s: string, k: int, j: int) {
    CiAt(s, "thought:", k) && CiAt(s, "```bash", j) && j >= k + 9
  }

  /** `extract_thought_length_from_message`: the words of the thought of the leftmost
      match, or `None` when the pattern does not match. */
  function ThoughtWords(content: string): (r: Option<nat>)
  {
    match FirstCi(content, "thought:", 0)
    case None => None
    case Some(k) =>
      match FirstCi(content, "```bash", k + 9)
      case None => None
      case Some(j) => Some(|Words(Strip(content[k + 8..j]))|)
  }

  /** The result is the regular expression's: `None` exactly when no match exists;
      otherwise the thought of the leftmost match, closed at its nearest "```bash". */
  lemma ThoughtWordsSpec(content: string)
    ensures ThoughtWords(content).None? <==> forall k, j :: !ThoughtMatch(content, k, j)
    ensures ThoughtWords(content).Some? ==>
              exists k, j :: ThoughtMatch(content, k, j)
                             && ThoughtWords(content).value == |Words(Strip(content[k + 8..j]))|
                             && (forall k', j' | k' < k :: !ThoughtMatch(content, k', j'))
                             && (forall j' | j' < j :: !ThoughtMatch(content, k, j'))
  {
    var first := FirstCi(content, "thought:", 0);
    if first.Some? {
      var k := first.value;
      var fence := FirstCi(content, "```bash", k + 9);
      if fence.None? {
        NoFence(content, k);
        assert ThoughtWords(content).None?;
      } else {
        var j := fence.value;
        Leftmost(content, k, j);
        assert ThoughtWords(content) == Some(|Words(Strip(content[k + 8..j]))|);
      }
    }
  }

  /** Without a "```bash" after the first "thought:", no match exists. */
  lemma NoFence(content: string, k: nat)
    requires FirstCi(content, "thought:", 0) == Some(k)
    requires FirstCi(content, "```bash", k + 9).None?
    ensures forall k', j' :: !ThoughtMatch(content, k', j')
  {
    forall k', j' ensures !ThoughtMatch(content, k', j') {
    }
  }

  /** The first "thought:" and the first "```bash" after it form the leftmost match. */
  lemma Leftmost(content: string, k: nat, j: nat)
    requires FirstCi(content, "thought:", 0) == Some(k)
    requires FirstCi(content, "```bash", k + 9) == Some(j)
    ensures ThoughtMatch(content, k, j)
    ensures forall k', j' | k' < k :: !ThoughtMatch(content, k', j')
    ensures forall j' | j' < j :: !ThoughtMatch(content, k, j')
  {
    forall k', j' | k' < k ensures !ThoughtMatch(content, k', j') {
      assert !CiAt(content, "thought:", k');
    }
  }

  // ---------------------------------------------------------------- messages

  /** Only the assistant's messages are searched; a missing content is the empty text. */
  predicate IsAssistant(m: Message) { m.role == Assistant }

  /** What one message contributes: nothing unless it is the assistant's; a TypeError for
      list content (`re.search` rejects it); its thought length when the pattern matches. */
  function Contribution(m: Message): (r: Result<seq<nat>>)
    ensures r.Ok? ==> |r.value| <= 1
  {
    if !IsAssistant(m) then Ok([])
    else match m.content
      case Parts(_) => Fail(TypeError)
      case Plain(text) => if ThoughtWords(text).Some? then Ok([ThoughtWords(text).value]) else Ok([])
  }

  /** `a` in front of a list of lengths; an error stays an error. */
  function Prepend(a: seq<nat>, r: Result<seq<nat>>): Result<seq<nat>> {
    match r
    case Fail(e) => Fail(e)
    case Ok(ls) => Ok(a + ls)
  }

  /** The thought lengths the messages contribute, in order, or the first error. */
  function LengthsOf(msgs: seq<Message>): Result<seq<nat>> {
    if msgs == [] then Ok([])
    else match Contribution(msgs[0])
      case Fail(e) => Fail(e)
      case Ok(a) => Prepend(a, LengthsOf(msgs[1..]))
  }

  /** The body of the loop over the messages. */
  method MessageThought(m: Message) returns (r: Result<seq<nat>>)
    ensures r == Contribution(m)
  {
    if m.role != Assistant {
      return Ok([]);
    }
    if m.content.Parts? {
      return Fail(TypeError);
    }
    var n := ThoughtWords(m.content.text);
    if n.None? {
      return Ok([]);
    }
    return Ok([n.value]);
  }

  /** The loop over one trajectory's messages. */
  method ThoughtLengths(msgs: seq<Message>) returns (r: Result<seq<nat>>)
    ensures r == LengthsOf(msgs)
  {
    var lengths: seq<nat> := [];
    assert msgs[0..] == msgs;
    PrependNothing(LengthsOf(msgs));
    for i := 0 to |msgs|
      invariant Prepend(lengths, LengthsOf(msgs[i..])) == LengthsOf(msgs)
    {
      assert msgs[i..][1..] == msgs[i + 1..];
      var c := MessageThought(msgs[i]);
      if c.Fail? {
        return Fail(c.error);
      }
      PrependTwice(lengths, c.value, LengthsOf(msgs[i + 1..]));
      lengths := lengths + c.value;
    }
    assert msgs[|msgs|..] == [];
    assert lengths + [] == lengths;
    return Ok(lengths);
  }

  lemma PrependNothing(r: Result<seq<nat>>)
    ensures Prepend([], r) == r
  {
    if r.Ok? {
      assert [] + r.value == r.value;
    }
  }

  lemma PrependTwice(a: seq<nat>, b: seq<nat>, r: Result<seq<nat>>)
    ensures Prepend(a, Prepend(b, r)) == Prepend(a + b, r)
  {
    if r.Ok? {
      assert a + (b + r.value) == (a + b) + r.value;
    }
  }

  /** The assistant messages with a matching thought. */
  function Thoughtful(msgs: seq<Message>): nat {
    if msgs == [] then 0
    else (if IsAssistant(msgs[0]) && msgs[0].content.Plain? && ThoughtWords(msgs[0].content.text).Some?
          then 1 else 0) + Thoughtful(msgs[1..])
  }

  /** A trajectory fails exactly when one of its assistant messages has list content;
      otherwise it yields one length per assistant message with a thought, and each is that
      message's thought length. */
  lemma LengthsOfSpec(msgs: seq<Message>)
    ensures LengthsOf(msgs).Fail? <==>
              exists i | 0 <= i < |msgs| :: IsAssistant(msgs[i]) && msgs[i].content.Parts?
    ensures LengthsOf(msgs).Ok? ==> |LengthsOf(msgs).value| == Thoughtful(msgs)
    ensures LengthsOf(msgs).Ok? ==>
              forall n | n in LengthsOf(msgs).value ::
                exists i | 0 <= i < |msgs| :: Yields(msgs[i], n)
  {
    LengthsFail(msgs);
    LengthsCount(msgs);
    LengthsFrom(msgs);
  }

  lemma {:induction false} LengthsFail(msgs: seq<Message>)
    ensures LengthsOf(msgs).Fail? <==>
              exists i | 0 <= i < |msgs| :: IsAssistant(msgs[i]) && msgs[i].content.Parts?
  {
    if msgs != [] {
      LengthsFail(msgs[1..]);
      var tail := msgs[1..];
      assert forall i | 0 <= i < |tail| :: tail[i] == msgs[i + 1];
      if exists i | 0 <= i < |msgs| :: IsAssistant(msgs[i]) && msgs[i].content.Parts? {
        var i :| 0 <= i < |msgs| && IsAssistant(msgs[i]) && msgs[i].content.Parts?;
        if i > 0 {
          assert IsAssistant(tail[i - 1]) && tail[i - 1].content.Parts?;
        }
      }
    }
  }

  lemma {:induction false} LengthsCount(msgs: seq<Message>)
    ensures LengthsOf(msgs).Ok? ==> |LengthsOf(msgs).value| == Thoughtful(msgs)
  {
    if msgs != [] {
      LengthsCount(msgs[1..]);
    }
  }

  lemma {:induction false} LengthsFrom(msgs: seq<Message>)
    ensures LengthsOf(msgs).Ok? ==>
              forall n | n in LengthsOf(msgs).value ::
                exists i | 0 <= i < |msgs| :: Yields(msgs[i], n)
  {
    if msgs != [] && LengthsOf(msgs).Ok? {
      LengthsFrom(msgs[1..]);
      var tail := msgs[1..];
      var a := Contribution(msgs[0]).value;
      var ls := LengthsOf(tail).value;
      assert LengthsOf(msgs).value == a + ls;
      forall n | n in a + ls
        ensures exists i | 0 <= i < |msgs| :: Yields(msgs[i], n)
      {
        if n in a {
          ContributionOf(msgs[0], n);
        } else {
          var i :| 0 <= i < |tail| && Yields(tail[i], n);
          assert tail[i] == msgs[i + 1];
        }
      }
    }
  }

  /** The message is the assistant's, in text, and its thought has `n` words. */
  predicate Yields(m: Message, n: nat) {
    IsAssistant(m) && m.content.Plain? && ThoughtWords(m.content.text) == Some(n)
  }

  lemma ContributionOf(m: Message, n: nat)
    requires Contribution(m).Ok? && n in Contribution(m).value
    ensures Yields(m, n)
  {
  }

  /** A trajectory contributes at most one length per assistant message. */
  lemma {:induction false} ThoughtfulAtMost(msgs: seq<Message>)
    ensures Thoughtful(msgs) <= |msgs|
  {
    if msgs != [] {
      ThoughtfulAtMost(msgs[1..]);
    }
  }

  // ---------------------------------------------------------------- trajectory files

  /** The round of a trajectory file: the text after the last "_r", up to its first ".",
      read by `int`; `None` when there is no "_r" or the text is not a number. */
  function TrajRound(name: string): Option<int> {
    if FindLast(name, "_r").None? then None
    else
      var part := AfterLast(name, "_r");
      var head := match IndexOf(part, '.') case None => part case Some(i) => part[..i];
      ParseInt(head)
  }

  /** A file named `<player>_r<n>.traj.json` is read as round `n`. */
  lemma TrajRoundOf(player: string, n: nat)
    ensures TrajRound(player + "_r" + NatToString(n) + ".traj.json") == Some(n)
  {
    var d := NatToString(n);
    var suffix := d + ".traj.json";
    assert '_' !in suffix by {
      forall i | 0 <= i < |suffix| ensures suffix[i] != '_' {
        if i < |d| { assert suffix[i] == d[i]; }
      }
    }
    var name := player + "_r" + NatToString(n) + ".traj.json";
    assert name == player + "_r" + suffix;
    LastMarker(player, suffix);
    FirstDot(d, ".traj.json");
    assert ParseInt(d) == Some(n);
    assert TrajRound(name) == ParseInt(d);
  }

  /** The last "_r" of `<player>_r<suffix>` is the one before the suffix when the suffix
      holds no underscore. */
  lemma LastMarker(player: string, suffix: string)
    requires '_' !in suffix
    ensures FindLast(player + "_r" + suffix, "_r") == Some(|player|)
    ensures AfterLast(player + "_r" + suffix, "_r") == suffix
  {
    var name := player + "_r" + suffix;
    assert name[|player|..|player| + 2] == "_r";
    assert HasAt(name, "_r", |player|);
    forall j | |player| < j ensures !HasAt(name, "_r", j) {
      if j < |name| {
        if j == |player| + 1 {
          assert name[j] == 'r';
        } else {
          assert name[j] == suffix[j - |player| - 2];
        }
      }
    }
    assert name[|player| + 2..] == suffix;
  }

  /** The first "." of `<digits>.<rest>` follows the digits. */
  lemma FirstDot(d: string, rest: string)
    requires AllDigits(d) && rest != [] && rest[0] == '.'
    ensures IndexOf(d + rest, '.') == Some(|d|) && (d + rest)[..|d|] == d
  {
    var s := d + rest;
    assert '.' !in d;
    assert s[..|d|] == d;
    assert s[|d|] == '.';
  }

  /** One trajectory file of `main`: files without a round, outside rounds 1 to 15, leave
      the lists alone; otherwise its thought lengths are appended to its round's list. */
  function AddTrajectory(lists: seq<seq<int>>, name: string, msgs: seq<Message>): (r: Result<seq<seq<int>>>)
    requires |lists| == Rounds
    ensures r.Ok? ==> |r.value| == Rounds
  {
    AddLengths(lists, TrajRound(name), LengthsOf(msgs))
  }

  function AddLengths(lists: seq<seq<int>>, round: Option<int>, lengths: Result<seq<nat>>): (r: Result<seq<seq<int>>>)
    requires |lists| == Rounds
    ensures r.Ok? ==> |r.value| == Rounds
  {
    match round
    case None => Ok(lists)
    case Some(round) =>
      if round < 1 || round > Rounds then Ok(lists)
      else match lengths
        case Fail(e) => Fail(e)
        case Ok(ls) => Ok(lists[round - 1 := lists[round - 1] + ls])
  }

  lemma AddLengthsSpec(lists: seq<seq<int>>, round: Option<int>, lengths: Result<seq<nat>>, k: nat)
    requires |lists| == Rounds && k < Rounds
    requires AddLengths(lists, round, lengths).Ok?
    ensures var l := AddLengths(lists, round, lengths).value[k];
      if round == Some(k + 1)
      then lengths.Ok? && l == lists[k] + lengths.value
      else l == lists[k]
  {
  }

  /** A trajectory of round `k + 1` extends that round's list by one length per assistant
      message with a thought, and changes no other round. */
  lemma AddTrajectorySpec(lists: seq<seq<int>>, name: string, msgs: seq<Message>, k: nat)
    requires |lists| == Rounds && k < Rounds
    requires AddTrajectory(lists, name, msgs).Ok?
    ensures var l := AddTrajectory(lists, name, msgs).value[k];
      if TrajRound(name) == Some(k + 1)
      then |l| == |lists[k]| + Thoughtful(msgs) && l[..|lists[k]|] == lists[k]
      else l == lists[k]
  {
    var round, lengths := TrajRound(name), LengthsOf(msgs);
    AddLengthsSpec(lists, round, lengths, k);
    if round == Some(k + 1) {
      LengthsOfSpec(msgs);
      var l := AddLengths(lists, round, lengths).value[k];
      assert l[..|lists[k]|] == lists[k];
    }
  }

  /** A trajectory file of one player: its name and its messages. */
  datatype TrajFile = TrajFile(name: string, messages: seq<Message>)

  /** The lists after the trajectory files `files`, stopping at the first error. */
  function AddTrajectories(lists: seq<seq<int>>, files: seq<TrajFile>): (r: Result<seq<seq<int>>>)
    requires |lists| == Rounds
    ensures r.Ok? ==> |r.value| == Rounds
    decreases |files|
  {
    if files == [] then Ok(lists)
    else
      match AddTrajectory(lists, files[0].name, files[0].messages)
      case Fail(e) => Fail(e)
      case Ok(next) => AddTrajectories(next, files[1..])
  }

  /** The loop of `main` over one player's trajectory files. */
  method CollectThoughts(lists: seq<seq<int>>, files: seq<TrajFile>) returns (r: Result<seq<seq<int>>>)
    requires |lists| == Rounds
    ensures r == AddTrajectories(lists, files)
  {
    var cur := lists;
    for i := 0 to |files|
      invariant |cur| == Rounds
      invariant AddTrajectories(cur, files[i..]) == AddTrajectories(lists, files)
    {
      assert files[i..][1..] == files[i + 1..];
      var round := TrajRound(files[i].name);
      if round.None? || round.value < 1 || round.value > Rounds {
        continue;
      }
      var lengths := ThoughtLengths(files[i].messages);
      if lengths.Fail? {
        return Fail(lengths.error);
      }
      cur := cur[round.value - 1 := cur[round.value - 1] + lengths.value];
    }
    assert files[|files|..] == [];
    return Ok(cur);
  }

  /** The files read as round `k + 1`, and the thoughts they hold. */
  function ThoughtsIn(files: seq<TrajFile>, k: nat): nat {
    if files == [] then 0
    else (if TrajRound(files[0].name) == Some(k + 1) then Thoughtful(files[0].messages) else 0)
         + ThoughtsIn(files[1..], k)
  }

  /** Every round's list gains exactly the thoughts of that round's files, behind the
      lengths it had. */
  lemma {:induction false} AddTrajectoriesCounts(lists: seq<seq<int>>, files: seq<TrajFile>, k: nat)
    requires |lists| == Rounds && k < Rounds
    requires AddTrajectories(lists, files).Ok?
    ensures var l := AddTrajectories(lists, files).value[k];
      |l| == |lists[k]| + ThoughtsIn(files, k) && l[..|lists[k]|] == lists[k]
    decreases |files|
  {
    if files != [] {
      var next := AddTrajectory(lists, files[0].name, files[0].messages).value;
      AddTrajectorySpec(lists, files[0].name, files[0].messages, k);
      AddTrajectoriesCounts(next, files[1..], k);
      assert AddTrajectories(lists, files) == AddTrajectories(next, files[1..]);
      GrowsBehind(lists[k], next[k], AddTrajectories(next, files[1..]).value[k]);
    }
  }

  /** Growing behind is transitive. */
  lemma GrowsBehind(a: seq<int>, b: seq<int>, c: seq<int>)
    requires |a| <= |b| <= |c| && b[..|a|] == a && c[..|b|] == b
    ensures c[..|a|] == a
  {
    assert c[..|a|] == c[..|b|][..|a|];
  }

  /** The per-round averages of one model. */
  method ThoughtAverages(lists: seq<seq<int>>) returns (avgs: seq<real>)
    ensures |avgs| == Rounds
    ensures forall k | 0 <= k < Rounds :: avgs[k] == Trimmed(RoundList(lists, k), 99)
  {
    avgs := RoundAverages(lists, Rounds, 99);
  }
}
