/** Agent trajectories as the analysis scripts read them: a list of chat messages, each with
    a role and a content that is either one text or a list of text parts. */
module Trajectory {
  import opened Text

  /** The message roles the scripts tell apart; every other role is `OtherRole`, and a message
      without a "role" key has `NoRole`. */
  datatype Role = Assistant | User | OtherRole | NoRole

  datatype Content = Plain(text: string) | Parts(texts: seq<string>)

  datatype Message = Message(role: Role, content: Content)

  /** A content read as one text, list parts joined by newlines (`"\n".join(...)`). */
  function JoinedText(c: Content): string
  {
    match c
    case Plain(t) => t
    case Parts(ts) => Join(ts, "\n")
  }

  /** The number of assistant messages. */
  function AssistantCount(msgs: seq<Message>): (n: nat)
    ensures n <= |msgs|
  {
    if msgs == [] then 0 else (if msgs[0].role == Assistant then 1 else 0) + AssistantCount(msgs[1..])
  }
}
