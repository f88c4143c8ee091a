/** The hallucination judge's fixed vocabulary, its data id, and the rendering of a trajectory
    it sends to the judge: every assistant message as a numbered step, every user message as
    it is. */
module Hallucination {
  import opened Wrappers
  import opened Text
  import opened Trajectory

  /** Where a claim's evidence comes from. */
  const SourceCategories: seq<string> :=
    ["log", "sourcecode", "docs", "execution_output.test", "execution_output.analysis", "none"]

  /** What a claim is about. */
  const ClaimCategories: seq<string> :=
    ["loss_reason", "win_reason", "game_results", "possible_improvement",
     "player_code_behavior", "performed_edits", "tool_use_error", "misc"]

  datatype Incident = Incident(
    stepIndex: int, claimCategory: string, claim: string,
    sourceCategory: string, source: string, detailedReasoning: string)

  /** The check of the two literal-typed fields of an incident. */
  function ValidateIncident(i: Incident): (r: Result<Incident>)
    ensures r.Ok? <==> i.claimCategory in ClaimCategories && i.sourceCategory in SourceCategories
    ensures r.Ok? ==> r.value == i
    ensures r.Fail? ==> r.error.ValueError?
  {
    if i.claimCategory !in ClaimCategories then Fail(ValueError("claim_category"))
    else if i.sourceCategory !in SourceCategories then Fail(ValueError("source_category"))
    else Ok(i)
  }

  /** `f"hallucination_v{version}"` */
  function DataId(version: nat): string {
    "hallucination_v" + NatToString(version)
  }

  /** Distinct versions have distinct data ids, and the id gives its version back. */
  lemma DataIdVersion(version: nat)
    ensures |DataId(version)| > 15 && DataId(version)[..15] == "hallucination_v"
    ensures ParseInt(DataId(version)[15..]) == Some(version)
  {
    assert DataId(version)[15..] == NatToString(version);
  }

  lemma DataIdInjective(a: nat, b: nat)
    requires DataId(a) == DataId(b)
    ensures a == b
  {
    DataIdVersion(a);
    DataIdVersion(b);
  }

  // ---------------------------------------------------------------- the rendered trajectory

  /** The block an assistant message becomes. */
  function StepBlock(index: nat, content: string): string {
    "\n<step index=\"" + NatToString(index) + "\">\n" + content + "\n</step>\n"
  }

  /** The text of a message: a list content must hold exactly one part. */
  function MessageText(c: Content): Result<string> {
    match c
    case Plain(t) => Ok(t)
    case Parts(ts) => if |ts| == 1 then Ok(ts[0]) else Fail(AssertionError)
  }

  /** A message the rendering cannot take: a list content of another length than one, or no
      role. */
  predicate Unrenderable(m: Message) {
    MessageText(m.content).Fail? || m.role == NoRole
  }

  /** What message `m` adds when `index` steps came before it, or the error it raises. */
  function Piece(m: Message, index: nat): Result<string> {
    match MessageText(m.content)
    case Fail(e) => Fail(e)
    case Ok(content) =>
      if m.role == NoRole then Fail(KeyError("role"))
      else if m.role == Assistant then Ok(StepBlock(index, content))
      else if m.role == User then Ok(content)
      else Ok("")
  }

  /** The rendering of `msgs` when `index` steps came before them. */
  function Rendered(msgs: seq<Message>, index: nat): Result<string>
    decreases |msgs|
  {
    if msgs == [] then Ok("")
    else
      match Piece(msgs[0], index)
      case Fail(e) => Fail(e)
      case Ok(p) =>
        var next := if msgs[0].role == Assistant then index + 1 else index;
        Then(p, Rendered(msgs[1..], next))
  }

  /** `acc` followed by a rendering, or the rendering's error. */
  function Then(acc: string, r: Result<string>): Result<string> {
    if r.Ok? then Ok(acc + r.value) else r
  }

  /** `_format_traj_str` */
  method FormatTrajectory(messages: seq<Message>) returns (r: Result<string>)
    ensures r == Rendered(messages, 0)
  {
    var trajectoryMessageStr := "";
    var stepIndex := 0;
    ThenNothing(Rendered(messages, 0));
    for i := 0 to |messages|
      invariant Then(trajectoryMessageStr, Rendered(messages[i..], stepIndex)) == Rendered(messages, 0)
    {
      assert messages[i..][0] == messages[i] && messages[i..][1..] == messages[i + 1..];
      var message := messages[i];
      var content: string;
      match message.content {
        case Plain(t) =>
          content := t;
        case Parts(ts) =>
          if |ts| != 1 {
            return Fail(AssertionError);
          }
          content := ts[0];
      }
      if message.role == NoRole {
        return Fail(KeyError("role"));
      }
      ThenTwice(trajectoryMessageStr, Piece(message, stepIndex).value,
                Rendered(messages[i + 1..], if message.role == Assistant then stepIndex + 1 else stepIndex));
      if message.role == Assistant {
        trajectoryMessageStr := trajectoryMessageStr + StepBlock(stepIndex, content);
        stepIndex := stepIndex + 1;
      } else if message.role == User {
        trajectoryMessageStr := trajectoryMessageStr + content;
      } else {
        assert trajectoryMessageStr + "" == trajectoryMessageStr;
      }
    }
    assert messages[|messages|..] == [];
    assert trajectoryMessageStr + "" == trajectoryMessageStr;
    return Ok(trajectoryMessageStr);
  }

  lemma ThenNothing(r: Result<string>)
    ensures Then("", r) == r
  {
    if r.Ok? {
      assert "" + r.value == r.value;
    }
  }

  lemma ThenTwice(a: string, b: string, r: Result<string>)
    ensures Then(a, Then(b, r)) == Then(a + b, r)
  {
    if r.Ok? {
      assert a + (b + r.value) == (a + b) + r.value;
    }
  }

  /** The rendering fails exactly when some message cannot be rendered, and then with the
      error of the first such message. */
  lemma {:induction false} RenderedFails(msgs: seq<Message>, index: nat)
    ensures Rendered(msgs, index).Fail? <==> exists j | 0 <= j < |msgs| :: Unrenderable(msgs[j])
    ensures Rendered(msgs, index).Fail? ==>
              exists j | 0 <= j < |msgs| :: Unrenderable(msgs[j])
                && (forall i | 0 <= i < j :: !Unrenderable(msgs[i]))
                && Rendered(msgs, index).error == Piece(msgs[j], 0).error
    decreases |msgs|
  {
    if msgs != [] {
      var next := if msgs[0].role == Assistant then index + 1 else index;
      var tail := msgs[1..];
      RenderedFails(tail, next);
      assert forall j | 0 <= j < |tail| :: tail[j] == msgs[j + 1];
      if Unrenderable(msgs[0]) {
        assert Piece(msgs[0], index).Fail?;
        assert Piece(msgs[0], index).error == Piece(msgs[0], 0).error;
      } else {
        assert Piece(msgs[0], index).Ok?;
        if Rendered(tail, next).Fail? {
          var j :| 0 <= j < |tail| && Unrenderable(tail[j])
            && (forall i | 0 <= i < j :: !Unrenderable(tail[i]))
            && Rendered(tail, next).error == Piece(tail[j], 0).error;
          assert Unrenderable(msgs[j + 1]);
          forall i | 0 <= i < j + 1 ensures !Unrenderable(msgs[i]) {
            if i > 0 {
              assert msgs[i] == tail[i - 1];
            }
          }
        } else {
          forall j | 0 <= j < |msgs| ensures !Unrenderable(msgs[j]) {
            if j > 0 {
              assert msgs[j] == tail[j - 1];
            }
          }
        }
      }
    }
  }

  /** What a renderable message shows after `index` earlier steps. */
  function PieceText(m: Message, index: nat): string
    requires !Unrenderable(m)
  {
    Piece(m, index).value
  }

  /** The pieces of `msgs`: message `j` is numbered by the assistant messages before it. */
  function Pieces(msgs: seq<Message>, index: nat): (r: seq<string>)
    requires forall j | 0 <= j < |msgs| :: !Unrenderable(msgs[j])
    ensures |r| == |msgs|
    ensures forall j | 0 <= j < |msgs| :: r[j] == PieceText(msgs[j], index + AssistantCount(msgs[..j]))
  {
    seq(|msgs|, j requires 0 <= j < |msgs| => PieceText(msgs[j], index + AssistantCount(msgs[..j])))
  }

  lemma PiecesCons(msgs: seq<Message>, index: nat)
    requires msgs != [] && forall j | 0 <= j < |msgs| :: !Unrenderable(msgs[j])
    ensures Pieces(msgs, index)[0] == PieceText(msgs[0], index)
    ensures var next := if msgs[0].role == Assistant then index + 1 else index;
      Pieces(msgs, index)[1..] == Pieces(msgs[1..], next)
  {
    var next := if msgs[0].role == Assistant then index + 1 else index;
    var tail := msgs[1..];
    var pieces, rest := Pieces(msgs, index), Pieces(tail, next);
    assert msgs[..0] == [];
    forall j | 0 <= j < |tail| ensures pieces[1..][j] == rest[j] {
      PieceShift(msgs, index, j);
    }
    assert |pieces[1..]| == |rest|;
  }

  lemma PieceShift(msgs: seq<Message>, index: nat, j: nat)
    requires j + 1 < |msgs| && forall i | 0 <= i < |msgs| :: !Unrenderable(msgs[i])
    ensures var next := if msgs[0].role == Assistant then index + 1 else index;
      Pieces(msgs, index)[j + 1] == Pieces(msgs[1..], next)[j]
  {
    CountShift(msgs, j);
    assert msgs[1..][j] == msgs[j + 1];
  }

  /** The assistant messages before message `j + 1` are the first message's and those before
      message `j` of the rest. */
  lemma CountShift(msgs: seq<Message>, j: nat)
    requires j < |msgs|
    ensures AssistantCount(msgs[..j + 1]) ==
              (if msgs[0].role == Assistant then 1 else 0) + AssistantCount(msgs[1..][..j])
  {
    assert msgs[..j + 1][1..] == msgs[1..][..j];
    assert msgs[..j + 1][0] == msgs[0];
  }

  /** The rendering, message by message: message `j` is numbered by the assistant messages
      before it, so the steps are numbered 0, 1, 2, … in order; user texts are kept
      verbatim and other roles add nothing. */
  lemma {:induction false} RenderedPieces(msgs: seq<Message>, index: nat)
    requires forall j | 0 <= j < |msgs| :: !Unrenderable(msgs[j])
    ensures Rendered(msgs, index) == Ok(Concat(Pieces(msgs, index)))
    decreases |msgs|
  {
    if msgs != [] {
      var next := if msgs[0].role == Assistant then index + 1 else index;
      var tail := msgs[1..];
      assert forall j | 0 <= j < |tail| :: tail[j] == msgs[j + 1];
      RenderedPieces(tail, next);
      PiecesCons(msgs, index);
      var pieces := Pieces(msgs, index);
      assert pieces[0] == PieceText(msgs[0], index) && pieces[1..] == Pieces(tail, next);
      assert Concat(pieces) == pieces[0] + Concat(pieces[1..]);
    }
  }

  /** The three shapes a piece takes. */
  lemma PieceShapes(m: Message, index: nat)
    requires !Unrenderable(m)
    ensures m.role == Assistant ==> PieceText(m, index) == StepBlock(index, MessageText(m.content).value)
    ensures m.role == User ==> PieceText(m, index) == MessageText(m.content).value
    ensures m.role == OtherRole ==> PieceText(m, index) == ""
  {
  }
}
