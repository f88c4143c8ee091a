/** Per-model statistics: the steps of each trajectory (its assistant messages), the commands
    that failed (a user message reporting a non-zero return code right after an assistant
    message holding a bash block), the failed commands by type, and the per-model profile
    that merges the trajectories' results. */
module PerModel {
  import opened Wrappers
  import opened Text
  import opened OrderedDict
  import opened Sums
  import opened Trajectory
  import opened CreatedFiles

  // ---------------------------------------------------------------- return codes

  /** `<returncode>(\d+)</returncode>` matches at `k`. */
  predicate CodeAt(s: string, k: nat) {
    HasAt(s, "<returncode>", k) && DigitRun(s, k + 12) > 0
    && HasAt(s, "</returncode>", k + 12 + DigitRun(s, k + 12))
  }

  /** The leftmost match from `k` on, read as a number. */
  function ReturnCodeFrom(s: string, k: nat): Option<nat>
    requires k <= |s|
    decreases |s| - k
  {
    if CodeAt(s, k) then Some(RunValue(s, k + 12))
    else if k == |s| then None
    else ReturnCodeFrom(s, k + 1)
  }

  function ReturnCode(s: string): Option<nat> {
    ReturnCodeFrom(s, 0)
  }

  /** A return code is found exactly when the pattern matches somewhere. */
  lemma {:induction false} ReturnCodeFromNone(s: string, k: nat)
    requires k <= |s|
    ensures ReturnCodeFrom(s, k).None? <==> forall j | k <= j <= |s| :: !CodeAt(s, j)
    decreases |s| - k
  {
    if !CodeAt(s, k) && k < |s| {
      ReturnCodeFromNone(s, k + 1);
    }
  }

  /** An observation opening with the return code `n` reports `n`. */
  lemma ReturnCodeOf(n: nat, rest: string)
    ensures ReturnCode("<returncode>" + NatToString(n) + "</returncode>" + rest) == Some(n)
  {
    var d := NatToString(n);
    var s := "<returncode>" + d + "</returncode>" + rest;
    assert s[..12] == "<returncode>";
    assert s[12..12 + |d|] == d;
    assert s[12 + |d|] == '<';
    DigitRunExact(s, 12, |d|);
    assert s[12 + |d|..12 + |d| + 13] == "</returncode>";
    assert CodeAt(s, 0);
  }

  // ---------------------------------------------------------------- bash blocks

  /** The length of the "```bash\n" or "```sh\n" opening at `k`, or 0. */
  function OpenerLen(s: string, k: int): nat {
    if HasAt(s, "```bash\n", k) then 8 else if HasAt(s, "```sh\n", k) then 6 else 0
  }

  /** The first opening at or after `from`. */
  function FirstOpener(s: string, from: nat): (r: Option<nat>)
    decreases |s| - from
    ensures r.Some? ==> from <= r.value && OpenerLen(s, r.value) > 0
    ensures r.Some? ==> forall j | from <= j < r.value :: OpenerLen(s, j) == 0
    ensures r.None? ==> forall j | from <= j :: OpenerLen(s, j) == 0
  {
    if from >= |s| then None
    else if OpenerLen(s, from) > 0 then Some(from)
    else FirstOpener(s, from + 1)
  }

  /** ```(bash|sh)\n(.*?)\n``` matches from `k` with its closing "\n```" at `j`. */
  predicate BlockMatch(s: string, k: int, j: int) {
    OpenerLen(s, k) > 0 && HasAt(s, "\n```", j) && j >= k + OpenerLen(s, k)
  }

  /** The command of the leftmost bash block: the text between its opening and the nearest
      closing. */
  function BashBlock(s: string): Option<string> {
    match FirstOpener(s, 0)
    case None => None
    case Some(k) =>
      match FindFrom(s, "\n```", k + OpenerLen(s, k))
      case None => None
      case Some(j) => Some(s[k + OpenerLen(s, k)..j])
  }

  /** No opening starts strictly inside another one. */
  lemma NoOpenerInside(s: string, k1: nat, k2: nat)
    requires OpenerLen(s, k1) > 0
    ensures k1 < k2 < k1 + OpenerLen(s, k1) ==> OpenerLen(s, k2) == 0
  {
    var l := OpenerLen(s, k1);
    var o := if l == 8 then "```bash\n" else "```sh\n";
    assert s[k1..k1 + l] == o;
    if k1 < k2 < k1 + l {
      if k2 <= k1 + 3 {
        assert s[k1 + 3] == o[3];
        HasAtIndex(s, "```bash\n", k2, k1 + 3 - k2);
        HasAtIndex(s, "```sh\n", k2, k1 + 3 - k2);
      } else {
        assert s[k2] == o[k2 - k1];
        HasAtIndex(s, "```bash\n", k2, 0);
        HasAtIndex(s, "```sh\n", k2, 0);
      }
    }
  }

  lemma HasAtIndex(s: string, p: string, k: int, m: nat)
    requires m < |p|
    ensures HasAt(s, p, k) ==> s[k + m] == p[m]
  {
    if HasAt(s, p, k) {
      assert s[k..k + |p|][m] == s[k + m];
    }
  }

  /** Two openings never overlap: a later one starts after the earlier one ends. */
  lemma OpenersApart(s: string, k1: nat, k2: nat)
    requires OpenerLen(s, k1) > 0 && OpenerLen(s, k2) > 0 && k1 < k2
    ensures k2 >= k1 + OpenerLen(s, k1)
  {
    NoOpenerInside(s, k1, k2);
  }

  /** The block found is the regular expression's: `None` exactly when nothing matches;
      otherwise the text of the leftmost match, closed at its nearest closing. */
  lemma BashBlockSpec(s: string)
    ensures BashBlock(s).None? <==> forall k, j :: !BlockMatch(s, k, j)
    ensures BashBlock(s).Some? ==>
              exists k, j :: BlockMatch(s, k, j) && BashBlock(s).value == s[k + OpenerLen(s, k)..j]
                             && (forall k', j' | k' < k :: !BlockMatch(s, k', j'))
                             && (forall j' | j' < j :: !BlockMatch(s, k, j'))
  {
    var first := FirstOpener(s, 0);
    if first.Some? {
      var k := first.value;
      var close := FindFrom(s, "\n```", k + OpenerLen(s, k));
      if close.None? {
        NoClosing(s, k);
        assert BashBlock(s).None?;
      } else {
        var j := close.value;
        FirstBlock(s, k, j);
        assert BashBlock(s) == Some(s[k + OpenerLen(s, k)..j]);
      }
    }
  }

  lemma NoClosing(s: string, k: nat)
    requires FirstOpener(s, 0) == Some(k)
    requires FindFrom(s, "\n```", k + OpenerLen(s, k)).None?
    ensures forall k', j' :: !BlockMatch(s, k', j')
  {
    forall k', j' | BlockMatch(s, k', j') ensures false {
      if k' != k {
        OpenersApart(s, k, k');
      }
    }
  }

  lemma FirstBlock(s: string, k: nat, j: nat)
    requires FirstOpener(s, 0) == Some(k)
    requires FindFrom(s, "\n```", k + OpenerLen(s, k)) == Some(j)
    ensures BlockMatch(s, k, j)
    ensures forall k', j' | k' < k :: !BlockMatch(s, k', j')
    ensures forall j' | j' < j :: !BlockMatch(s, k, j')
  {
  }

  /** `command.split()[0] if command else "unknown"` for the stripped block. */
  function CommandType(block: string): (r: string)
    ensures Strip(block) == [] <==> r == "unknown" && Words(Strip(block)) == []
    ensures Strip(block) != [] ==> IsWord(r)
  {
    var command := Strip(block);
    if command == [] then "unknown"
    else
      assert LStrip(command) == command;
      Words(command)[0]
  }

  /** A command made of words has its first word as its type. */
  lemma CommandTypeOfWords(ws: seq<string>)
    requires ws != [] && forall w | w in ws :: IsWord(w)
    ensures CommandType(Join(ws, " ")) == ws[0]
  {
    var s := Join(ws, " ");
    JoinEnds(ws);
    assert LStrip(s) == s;
    assert RStrip(s) == s;
    assert Strip(s) == s;
    JoinWords(ws);
  }

  /** A join of words neither starts nor ends with white space. */
  lemma {:induction false} JoinEnds(ws: seq<string>)
    requires ws != [] && forall w | w in ws :: IsWord(w)
    ensures var s := Join(ws, " "); s != [] && !IsSpace(s[0]) && !IsSpace(s[|s| - 1])
  {
    assert ws[0] in ws && IsWord(ws[0]);
    if |ws| > 1 {
      JoinEnds(ws[1..]);
      var t := Join(ws[1..], " ");
      assert Join(ws, " ") == ws[0] + " " + t;
    } else {
      assert |ws[0]| > 0 && IsWord(ws[0]);
    }
  }

  // ---------------------------------------------------------------- failures

  /** The text of a user message: the text itself, or the first part of a non-empty list. */
  function UserText(c: Content): Option<string> {
    match c
    case Plain(t) => Some(t)
    case Parts(ts) => if ts == [] then None else Some(ts[0])
  }

  /** What message `i` adds to the failure statistics: the type of a failed command, nothing,
      or the error the message raises (a missing role; a list content where a text is
      searched). */
  function Outcome(msgs: seq<Message>, i: nat): Result<Option<string>>
    requires i < |msgs|
  {
    var m := msgs[i];
    if m.role == NoRole then Fail(KeyError("role"))
    else if m.role != User then Ok(None)
    else match UserText(m.content)
      case None => Ok(None)
      case Some(text) =>
        var code := ReturnCode(text);
        if i == 0 || code.None? then Ok(None)
        else
          var prev := msgs[i - 1];
          if prev.role == NoRole then Fail(KeyError("role"))
          else if prev.role != Assistant then Ok(None)
          else match prev.content
            case Parts(_) => Fail(TypeError)
            case Plain(p) =>
              match BashBlock(p)
              case None => Ok(None)
              case Some(block) => if code.value != 0 then Ok(Some(CommandType(block))) else Ok(None)
  }

  /** A failure is counted exactly when message `i > 0` is a user message reporting a
      non-zero return code and message `i - 1` is an assistant message holding a bash
      block. */
  lemma OutcomeSpec(msgs: seq<Message>, i: nat)
    requires i < |msgs|
    ensures Outcome(msgs, i).Ok? && Outcome(msgs, i).value.Some? <==>
              i > 0 && msgs[i].role == User && UserText(msgs[i].content).Some?
              && ReturnCode(UserText(msgs[i].content).value).Some?
              && ReturnCode(UserText(msgs[i].content).value).value != 0
              && msgs[i - 1].role == Assistant && msgs[i - 1].content.Plain?
              && BashBlock(msgs[i - 1].content.text).Some?
  {
  }

  datatype FailureStats = FailureStats(failed: nat, types: Counts)

  /** The outcome of every message, in order. */
  function Outcomes(msgs: seq<Message>): (r: seq<Result<Option<string>>>)
    ensures |r| == |msgs| && forall i | 0 <= i < |msgs| :: r[i] == Outcome(msgs, i)
  {
    seq(|msgs|, i requires 0 <= i < |msgs| => Outcome(msgs, i))
  }

  /** One failure more, of type `t`. */
  function Step(acc: FailureStats, o: Option<string>): FailureStats {
    match o
    case None => acc
    case Some(t) => FailureStats(acc.failed + 1, Tally(acc.types, t))
  }

  /** The statistics after the outcomes `os`, starting from `acc`, or the first error. */
  function Fold(os: seq<Result<Option<string>>>, acc: FailureStats): Result<FailureStats>
    decreases |os|
  {
    if os == [] then Ok(acc)
    else if os[0].Fail? then Fail(os[0].error)
    else Fold(os[1..], Step(acc, os[0].value))
  }

  function StatsOf(msgs: seq<Message>): Result<FailureStats> {
    Fold(Outcomes(msgs), FailureStats(0, []))
  }

  predicate IsFailure(o: Result<Option<string>>) {
    o.Ok? && o.value.Some?
  }

  /** The failures among the outcomes. */
  function Failures(os: seq<Result<Option<string>>>): nat {
    if os == [] then 0 else (if IsFailure(os[0]) then 1 else 0) + Failures(os[1..])
  }

  /** The fold counts every failure once, by type, and fails with the first error. */
  lemma {:induction false} FoldSpec(os: seq<Result<Option<string>>>, acc: FailureStats)
    requires Total(acc.types) == acc.failed
    ensures Fold(os, acc).Fail? <==> exists i | 0 <= i < |os| :: os[i].Fail?
    ensures Fold(os, acc).Fail? ==> exists i | 0 <= i < |os| :: os[i] == Fail(Fold(os, acc).error)
    ensures Fold(os, acc).Ok? ==>
              Fold(os, acc).value.failed == acc.failed + Failures(os)
              && Total(Fold(os, acc).value.types) == Fold(os, acc).value.failed
    decreases |os|
  {
    if os != [] {
      var tail := os[1..];
      assert forall i | 0 <= i < |tail| :: tail[i] == os[i + 1];
      if os[0].Ok? {
        var next := Step(acc, os[0].value);
        if os[0].value.Some? {
          TallyTotal(acc.types, os[0].value.value);
        }
        FoldSpec(tail, next);
        if Fold(tail, next).Fail? {
          var i :| 0 <= i < |tail| && tail[i] == Fail(Fold(tail, next).error);
          assert os[i + 1] == tail[i];
        }
      }
    }
  }

  /** Failures aligned with assistant messages number at most the assistant messages. */
  lemma {:induction false} AlignedFailures(os: seq<Result<Option<string>>>, msgs: seq<Message>)
    requires |os| <= |msgs|
    requires forall i | 0 <= i < |os| :: IsFailure(os[i]) ==> msgs[i].role == Assistant
    ensures Failures(os) <= AssistantCount(msgs)
  {
    if os != [] {
      var tail, rest := os[1..], msgs[1..];
      forall i | 0 <= i < |tail| && IsFailure(tail[i]) ensures rest[i].role == Assistant {
        assert tail[i] == os[i + 1];
      }
      AlignedFailures(tail, rest);
    }
  }

  /** Every failure follows its own assistant message, so a trajectory has no more failures
      than steps. */
  lemma FailuresAtMostSteps(msgs: seq<Message>)
    ensures Failures(Outcomes(msgs)) <= AssistantCount(msgs)
  {
    var os := Outcomes(msgs);
    if os != [] {
      assert Outcome(msgs, 0) == os[0];
      assert !IsFailure(os[0]);
      var tail := os[1..];
      forall i | 0 <= i < |tail| && IsFailure(tail[i]) ensures msgs[i].role == Assistant {
        assert tail[i] == Outcome(msgs, i + 1);
      }
      AlignedFailures(tail, msgs);
      assert Failures(os) == Failures(tail);
    }
  }

  /** A trajectory's failure statistics: the counts by type sum to the failures, and there
      are no more failures than assistant messages. */
  lemma StatsOfSpec(msgs: seq<Message>)
    requires StatsOf(msgs).Ok?
    ensures Total(StatsOf(msgs).value.types) == StatsOf(msgs).value.failed
    ensures StatsOf(msgs).value.failed <= AssistantCount(msgs)
  {
    FoldSpec(Outcomes(msgs), FailureStats(0, []));
    FailuresAtMostSteps(msgs);
  }

  /** Once every message has a role, a message raises only a TypeError. */
  lemma OutcomeErrors(msgs: seq<Message>, i: nat)
    requires i < |msgs|
    requires forall j | 0 <= j < |msgs| :: msgs[j].role != NoRole
    ensures Outcome(msgs, i).Fail? ==> Outcome(msgs, i).error == TypeError
  {
    assert msgs[i].role != NoRole;
    if i > 0 {
      assert msgs[i - 1].role != NoRole;
    }
  }

  /** A trajectory whose messages all have a role fails only with a TypeError. */
  lemma StatsErrors(msgs: seq<Message>)
    requires forall j | 0 <= j < |msgs| :: msgs[j].role != NoRole
    ensures StatsOf(msgs).Fail? ==> StatsOf(msgs).error == TypeError
  {
    var os := Outcomes(msgs);
    FoldSpec(os, FailureStats(0, []));
    if StatsOf(msgs).Fail? {
      var i :| 0 <= i < |os| && os[i] == Fail(StatsOf(msgs).error);
      OutcomeErrors(msgs, i);
    }
  }

  /** The steps of a trajectory, or the KeyError of a message without a role. */
  function StepsOf(msgs: seq<Message>): Result<nat> {
    if exists i | 0 <= i < |msgs| :: msgs[i].role == NoRole then Fail(KeyError("role"))
    else Ok(AssistantCount(msgs))
  }

  /** The body of the loop of `failure_stats`. */
  method FailureAt(msgs: seq<Message>, i: nat) returns (r: Result<Option<string>>)
    requires i < |msgs|
    ensures r == Outcome(msgs, i)
  {
    var message := msgs[i];
    if message.role == NoRole {
      return Fail(KeyError("role"));
    }
    if message.role != User {
      return Ok(None);
    }
    var textContent: string;
    match message.content {
      case Parts(ts) =>
        if ts == [] {
          return Ok(None);
        }
        textContent := ts[0];
      case Plain(t) =>
        textContent := t;
    }
    assert UserText(message.content) == Some(textContent);
    var returncode := ReturnCode(textContent);
    if i == 0 || returncode.None? {
      return Ok(None);
    }
    var prev := msgs[i - 1];
    if prev.role == NoRole {
      return Fail(KeyError("role"));
    }
    if prev.role != Assistant {
      return Ok(None);
    }
    if prev.content.Parts? {
      return Fail(TypeError);
    }
    var bash := BashBlock(prev.content.text);
    if bash.None? {
      return Ok(None);
    }
    var cmdType := CommandType(bash.value);
    if returncode.value != 0 {
      return Ok(Some(cmdType));
    }
    return Ok(None);
  }

  /** A trajectory file as the analyzer reads it, with the two results it caches. */
  class TrajectoryAnalyzer {
    const messages: seq<Message>
    var cachedSteps: Option<nat>
    var cachedFailureStats: Option<FailureStats>

    /** A cached value is the value the messages give. */
    ghost predicate Valid()
      reads this
    {
      && (cachedSteps.Some? ==> StepsOf(messages) == Ok(cachedSteps.value))
      && (cachedFailureStats.Some? ==> StatsOf(messages) == Ok(cachedFailureStats.value))
    }

    /** `loaded` is `None` for a file that cannot be read or parsed, which leaves no
        messages. */
    constructor(loaded: Option<seq<Message>>)
      ensures messages == (if loaded.Some? then loaded.value else [])
      ensures cachedSteps == None && cachedFailureStats == None
      ensures Valid()
    {
      messages := if loaded.Some? then loaded.value else [];
      cachedSteps := None;
      cachedFailureStats := None;
    }

    /** `steps`: computed once, then read from the cache. */
    method Steps() returns (r: Result<nat>)
      requires Valid()
      modifies this
      ensures Valid()
      ensures r == StepsOf(messages)
      ensures old(cachedSteps).Some? ==> r == Ok(old(cachedSteps).value) && cachedSteps == old(cachedSteps)
      ensures old(cachedSteps).None? ==> cachedSteps == (if r.Ok? then Some(r.value) else None)
      ensures cachedFailureStats == old(cachedFailureStats)
    {
      if cachedSteps.Some? {
        return Ok(cachedSteps.value);
      }
      var n := 0;
      for i := 0 to |messages|
        invariant n + AssistantCount(messages[i..]) == AssistantCount(messages)
        invariant forall j | 0 <= j < i :: messages[j].role != NoRole
      {
        assert messages[i..][1..] == messages[i + 1..];
        if messages[i].role == NoRole {
          return Fail(KeyError("role"));
        }
        if messages[i].role == Assistant {
          n := n + 1;
        }
      }
      assert messages[|messages|..] == [];
      cachedSteps := Some(n);
      return Ok(n);
    }

    /** `failure_stats`: computed once, then read from the cache. */
    method FailureStatistics() returns (r: Result<FailureStats>)
      requires Valid()
      modifies this
      ensures Valid()
      ensures r == StatsOf(messages)
      ensures old(cachedFailureStats).Some? ==>
                (r == Ok(old(cachedFailureStats).value) && cachedFailureStats == old(cachedFailureStats))
      ensures old(cachedFailureStats).None? ==> cachedFailureStats == (if r.Ok? then Some(r.value) else None)
      ensures cachedSteps == old(cachedSteps)
    {
      if cachedFailureStats.Some? {
        return Ok(cachedFailureStats.value);
      }
      r := CollectFailures(messages);
      cachedFailureStats := if r.Ok? then Some(r.value) else None;
    }
  }

  /** The loop of `failure_stats`. */
  method CollectFailures(msgs: seq<Message>) returns (r: Result<FailureStats>)
    ensures r == StatsOf(msgs)
  {
    ghost var os := Outcomes(msgs);
    var failed := 0;
    var types: Counts := [];
    for i := 0 to |msgs|
      invariant Fold(os[i..], FailureStats(failed, types)) == StatsOf(msgs)
    {
      assert os[i..][1..] == os[i + 1..] && os[i..][0] == os[i];
      ghost var acc := FailureStats(failed, types);
      var o := FailureAt(msgs, i);
      assert o == os[i];
      if o.Fail? {
        return Fail(o.error);
      }
      assert Fold(os[i..], acc) == Fold(os[i + 1..], Step(acc, o.value));
      if o.value.Some? {
        failed, types := RecordFailure(failed, types, o.value.value);
      }
    }
    assert os[|msgs|..] == [];
    return Ok(FailureStats(failed, types));
  }

  /** `failed_count += 1; cmd_types[cmd_type] = cmd_types.get(cmd_type, 0) + 1` */
  method RecordFailure(failed: nat, types: Counts, cmdType: string) returns (failed': nat, types': Counts)
    ensures FailureStats(failed', types') == Step(FailureStats(failed, types), Some(cmdType))
  {
    failed' := failed + 1;
    types' := Put<nat>(types, cmdType, Count(types, cmdType) + 1);
  }

  datatype TrajectoryResult = TrajectoryResult(modelName: string, steps: nat, failureStats: FailureStats)

  /** `process_trajectory_file`: a KeyError gives no result; a TypeError propagates. */
  method ProcessTrajectory(loaded: Option<seq<Message>>, model: string) returns (r: Result<Option<TrajectoryResult>>)
    ensures var msgs := if loaded.Some? then loaded.value else [];
      r == match StepsOf(msgs)
           case Fail(_) => Ok(None)
           case Ok(n) =>
             match StatsOf(msgs)
             case Fail(e) => Fail(e)
             case Ok(stats) => Ok(Some(TrajectoryResult(model, n, stats)))
  {
    var analyzer := new TrajectoryAnalyzer(loaded);
    var steps := analyzer.Steps();
    if steps.Fail? {
      return Ok(None);
    }
    StatsErrors(analyzer.messages);
    var stats := analyzer.FailureStatistics();
    if stats.Fail? {
      if stats.error.KeyError? {
        return Ok(None);
      }
      return Fail(stats.error);
    }
    return Ok(Some(TrajectoryResult(model, steps.value, stats.value)));
  }

  /** A result's failures are at most its steps and equal the sum of its counts by type; a
      trajectory fails only on a list content searched as text. */
  lemma ProcessTrajectorySpec(msgs: seq<Message>)
    requires StepsOf(msgs).Ok?
    ensures StatsOf(msgs).Fail? ==> StatsOf(msgs).error == TypeError
    ensures StatsOf(msgs).Ok? ==>
              (Total(StatsOf(msgs).value.types) == StatsOf(msgs).value.failed
               && StatsOf(msgs).value.failed <= StepsOf(msgs).value)
  {
    StatsErrors(msgs);
    if StatsOf(msgs).Ok? {
      StatsOfSpec(msgs);
    }
  }

  /** An unreadable trajectory still gives a result: no steps and no failures. */
  lemma UnreadableTrajectory(model: string)
    ensures StepsOf([]) == Ok(0) && StatsOf([]) == Ok(FailureStats(0, []))
  {
  }

  // ---------------------------------------------------------------- the model profile

  /** `model_name.strip("@").rpartition("/")[-1]` */
  function ModelName(raw: string): (r: string)
    ensures '/' !in r
  {
    AfterLastChar(StripChar(raw, '@'), '/');
    AfterLast(StripChar(raw, '@'), "/")
  }

  /** A model's statistics, merged from its trajectories. */
  class ModelProfile {
    const name: string
    var steps: seq<nat>
    var failedCommands: nat
    var failedCommandTypes: Counts
    var tournaments: seq<string>

    /** The counts by type sum to the failures, which are at most the steps. */
    ghost predicate Valid()
      reads this
    {
      Total(failedCommandTypes) == failedCommands && failedCommands <= SumSeq(steps)
    }

    constructor(name: string)
      ensures this.name == name && steps == [] && failedCommands == 0
      ensures failedCommandTypes == [] && tournaments == []
      ensures Valid()
    {
      this.name := name;
      steps := [];
      failedCommands := 0;
      failedCommandTypes := [];
      tournaments := [];
    }

    /** `profiles[model].tournaments.append(stem)` */
    method AddTournament(stem: string)
      modifies this
      ensures tournaments == old(tournaments) + [stem]
      ensures steps == old(steps) && failedCommands == old(failedCommands)
      ensures failedCommandTypes == old(failedCommandTypes)
    {
      tournaments := tournaments + [stem];
    }

    /** The merge of one trajectory's result in `main`. */
    method AddResult(t: TrajectoryResult)
      requires Valid()
      requires Total(t.failureStats.types) == t.failureStats.failed && t.failureStats.failed <= t.steps
      modifies this
      ensures Valid()
      ensures steps == old(steps) + [t.steps]
      ensures failedCommands == old(failedCommands) + t.failureStats.failed
      ensures failedCommandTypes == MergeFrom(old(failedCommandTypes), t.failureStats.types)
      ensures tournaments == old(tournaments)
    {
      SumSeqAppend(steps, t.steps);
      steps := steps + [t.steps];
      failedCommands := failedCommands + t.failureStats.failed;
      failedCommandTypes := MergeCounts(failedCommandTypes, t.failureStats.types);
      MergeTotal(old(failedCommandTypes), t.failureStats.types);
    }
  }

  /** `into[k] = into.get(k, 0) + v` for every entry of `from`, in order. */
  function MergeFrom(into: Counts, from: Counts): Counts
    decreases |from|
  {
    if from == [] then into
    else MergeFrom(Put<nat>(into, from[0].0, Count(into, from[0].0) + from[0].1), from[1..])
  }

  method MergeCounts(into: Counts, from: Counts) returns (r: Counts)
    ensures r == MergeFrom(into, from)
  {
    r := into;
    for i := 0 to |from|
      invariant MergeFrom(r, from[i..]) == MergeFrom(into, from)
    {
      assert from[i..][1..] == from[i + 1..];
      var (k, v) := from[i];
      r := Put<nat>(r, k, Count(r, k) + v);
    }
    assert from[|from|..] == [];
  }

  /** Adding `v` under one key adds `v` to the total. */
  lemma AddTotal(c: Counts, k: string, v: nat)
    ensures Total(Put<nat>(c, k, Count(c, k) + v)) == Total(c) + v
  {
    match Find<nat>(c, k)
    case Some(i) =>
      assert Count(c, k) == c[i].1;
      TotalUpdate(c, i, (k, Count(c, k) + v));
    case None =>
      TotalAppend(c, (k, v));
  }

  /** Merging adds the totals. */
  lemma {:induction false} MergeTotal(into: Counts, from: Counts)
    ensures Total(MergeFrom(into, from)) == Total(into) + Total(from)
    decreases |from|
  {
    if from != [] {
      AddTotal(into, from[0].0, from[0].1);
      MergeTotal(Put<nat>(into, from[0].0, Count(into, from[0].0) + from[0].1), from[1..]);
    }
  }

  /** The values of `from` under key `k`, added up. */
  function KeyTotal(from: Counts, k: string): nat {
    if from == [] then 0 else (if from[0].0 == k then from[0].1 else 0) + KeyTotal(from[1..], k)
  }

  /** Merging adds, key by key. */
  lemma {:induction false} MergeCount(into: Counts, from: Counts, k: string)
    ensures Count(MergeFrom(into, from), k) == Count(into, k) + KeyTotal(from, k)
    decreases |from|
  {
    if from != [] {
      var next := Put<nat>(into, from[0].0, Count(into, from[0].0) + from[0].1);
      PutGet<nat>(into, from[0].0, Count(into, from[0].0) + from[0].1, k);
      MergeCount(next, from[1..], k);
    }
  }

  /** `sum(steps) / len(steps) if steps else 0.0` */
  function StepsPerRound(steps: seq<nat>): (r: real)
    ensures steps == [] ==> r == 0.0
  {
    if steps == [] then 0.0 else SumSeq(steps) as real / |steps| as real
  }

  /** `cmd_failure_rate` as written: guarded on `steps` being non-empty, so a model whose
      trajectories all have zero steps divides by zero. */
  function CmdFailureRateAsWritten(failed: nat, steps: seq<nat>): Result<real> {
    if steps == [] then Ok(0.0)
    else if SumSeq(steps) == 0 then Fail(ZeroDivisionError)
    else Ok(failed as real / SumSeq(steps) as real)
  }

  /** A model with one unreadable trajectory (zero steps) cannot be printed. */
  lemma ZeroStepsDivide()
    ensures CmdFailureRateAsWritten(0, [0]) == Fail(ZeroDivisionError)
  {
    assert [0][..0] == [];
  }

  /** `cmd_failure_rate` guarded on the total: the share of steps whose command failed. */
  function CmdFailureRate(failed: nat, steps: seq<nat>): real {
    if SumSeq(steps) <= 0 then 0.0 else failed as real / SumSeq(steps) as real
  }

  /** The rate is defined for every profile, lies in [0, 1] for a profile whose failures are
      at most its steps, and agrees with the written one wherever that one is defined. */
  lemma CmdFailureRateSpec(failed: nat, steps: seq<nat>)
    ensures failed <= SumSeq(steps) ==> 0.0 <= CmdFailureRate(failed, steps) <= 1.0
    ensures CmdFailureRateAsWritten(failed, steps).Ok? ==>
              CmdFailureRateAsWritten(failed, steps).value == CmdFailureRate(failed, steps)
  {
    SumNonNegative(steps);
  }

  lemma {:induction false} SumNonNegative(steps: seq<nat>)
    ensures SumSeq(steps) >= 0
  {
    if steps != [] {
      SumNonNegative(steps[..|steps| - 1]);
    }
  }

  /** `t.split(".", 2)[1]`: the text between the first and the second ".", or `None` (an
      IndexError) when there is no ".". */
  function SecondField(t: string): Option<string> {
    match IndexOf(t, '.')
    case None => None
    case Some(i) =>
      var rest := t[i + 1..];
      match IndexOf(rest, '.')
      case None => Some(rest)
      case Some(j) => Some(rest[..j])
  }

  /** A tournament named `<prefix>.<game>.<rest>` counts for `<game>`. */
  lemma SecondFieldOf(prefix: string, game: string, rest: string)
    requires '.' !in prefix && '.' !in game
    ensures SecondField(prefix + "." + game + "." + rest) == Some(game)
  {
    var t := prefix + "." + game + "." + rest;
    assert t[|prefix|] == '.' && t[..|prefix|] == prefix;
    var r := t[|prefix| + 1..];
    assert r == game + "." + rest;
    assert r[|game|] == '.' && r[..|game|] == game;
  }

  /** `Counter([t.split(".", 2)[1] for t in tournaments])` */
  function TournamentCount(ts: seq<string>): Result<Counts> {
    TournamentCountFrom([], ts)
  }

  function TournamentCountFrom(c: Counts, ts: seq<string>): Result<Counts>
    decreases |ts|
  {
    if ts == [] then Ok(c)
    else match SecondField(ts[0])
      case None => Fail(IndexError)
      case Some(g) => TournamentCountFrom(Tally(c, g), ts[1..])
  }

  /** The tournaments with game `g`. */
  function Played(ts: seq<string>, g: string): nat {
    if ts == [] then 0 else (if SecondField(ts[0]) == Some(g) then 1 else 0) + Played(ts[1..], g)
  }

  /** The count fails exactly when a tournament name has no "."; otherwise each game counts
      its tournaments and the counts add up to the tournaments. */
  lemma {:induction false} TournamentCountSpec(c: Counts, ts: seq<string>, g: string)
    ensures TournamentCountFrom(c, ts).Fail? <==> exists i | 0 <= i < |ts| :: '.' !in ts[i]
    ensures TournamentCountFrom(c, ts).Ok? ==>
              Total(TournamentCountFrom(c, ts).value) == Total(c) + |ts|
              && Count(TournamentCountFrom(c, ts).value, g) == Count(c, g) + Played(ts, g)
    decreases |ts|
  {
    if ts != [] {
      var tail := ts[1..];
      assert forall i | 0 <= i < |tail| :: tail[i] == ts[i + 1];
      match SecondField(ts[0])
      case None =>
      case Some(h) =>
        TallyTotal(c, h);
        TallyGet(c, h, g);
        TournamentCountSpec(Tally(c, h), tail, g);
    }
  }
}
