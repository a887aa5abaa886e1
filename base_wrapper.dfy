/**
  The message and session model shared by every backend adapter: the
  validated chat message, the mutable message list an adapter owns, the
  `new_session` reset, and the reply finishing step (strip, then the
  caller's optional post-processing hook) that every adapter applies.
 */
module BaseWrapper {
  import opened Wrappers
  import opened Exceptions
  import PyStr

  datatype Role = System | Assistant | User

  function RoleName(r: Role): string
  {
    match r
    case System => "system"
    case Assistant => "assistant"
    case User => "user"
  }

  /** The role whose name is `name`, if there is one. */
  function ParseRole(name: string): (r: Option<Role>)
    ensures r.Some? <==> name == "system" || name == "assistant" || name == "user"
    ensures r.Some? ==> RoleName(r.value) == name
  {
    if name == "system" then Some(System)
    else if name == "assistant" then Some(Assistant)
    else if name == "user" then Some(User)
    else None
  }

  lemma RoleNameRoundTrip(r: Role)
    ensures ParseRole(RoleName(r)) == Some(r)
  {
  }

  /** A validated chat message: a role of the closed set and text content. */
  datatype ChatMessage = ChatMessage(role: Role, content: string)

  /** A Python value, as far as the modelled code inspects its type. */
  datatype Value =
    | Str(s: string)
    | Bool(b: bool)
    | Int(i: int)
    | NoneValue
    | List(items: seq<Value>)
    | Dict(entries: map<string, Value>)

  const ROLE_ERROR: string := "role should be \"system\", \"assistant\", or \"user\""
  const CONTENT_ERROR: string := "content should be of type str"

  /** `ChatMessage(role=..., content=...)` with its `__post_init__` checks:
      the role is checked first, then the type of the content; empty text
      is accepted. */
  function NewChatMessage(role: string, content: Value): (r: Result<ChatMessage, Error>)
    ensures r.Ok? <==> ParseRole(role).Some? && content.Str?
    ensures r.Ok? ==> RoleName(r.value.role) == role && r.value.content == content.s
    ensures ParseRole(role).None? ==> r == Err(TypeError(ROLE_ERROR))
    ensures ParseRole(role).Some? && !content.Str? ==> r == Err(TypeError(CONTENT_ERROR))
  {
    match ParseRole(role)
    case None => Err(TypeError(ROLE_ERROR))
    case Some(rl) =>
      if content.Str? then Ok(ChatMessage(rl, content.s)) else Err(TypeError(CONTENT_ERROR))
  }

  /** `dataclasses.asdict(msg)`: the role/content record a backend receives. */
  datatype MessageRecord = MessageRecord(role: string, content: string)

  function AsRecords(s: seq<ChatMessage>): (r: seq<MessageRecord>)
    ensures |r| == |s|
    ensures forall i :: 0 <= i < |s| ==> r[i] == MessageRecord(RoleName(s[i].role), s[i].content)
  {
    seq(|s|, i requires 0 <= i < |s| => MessageRecord(RoleName(s[i].role), s[i].content))
  }

  /** A Python list of chat messages.  It is an object so that a list handed
      to `new_session` is shared with the caller, as in the source. */
  class MessageList {
    var items: seq<ChatMessage>

    constructor (initial: seq<ChatMessage>)
      ensures items == initial
    {
      items := initial;
    }

    /** `list.append(m)` */
    method Append(m: ChatMessage)
      modifies this
      ensures items == old(items) + [m]
    {
      items := items + [m];
    }

    /** `list.insert(0, m)` */
    method InsertFirst(m: ChatMessage)
      modifies this
      ensures items == [m] + old(items)
    {
      items := [m] + items;
    }
  }

  /** The body of `new_session`, common to all adapters: a fresh empty list
      is made first; a system prompt then makes it a one-message session
      (and passing a transcript as well fails the assertion, leaving the
      fresh empty list); otherwise a given transcript replaces it by
      reference. */
  method StartSession(systemContent: Option<string>, given: Option<MessageList>)
    returns (session: MessageList, r: Outcome<Error>)
    ensures systemContent.Some? && given.Some? ==>
      r == Fail(AssertionError("")) && fresh(session) && session.items == []
    ensures systemContent.Some? && given.None? ==>
      r == Pass && fresh(session) && session.items == [ChatMessage(System, systemContent.value)]
    ensures systemContent.None? && given.Some? ==>
      r == Pass && session == given.value && session.items == old(given.value.items)
    ensures systemContent.None? && given.None? ==>
      r == Pass && fresh(session) && session.items == []
  {
    session := new MessageList([]);
    r := Pass;
    if systemContent.Some? {
      if given.Some? {
        r := Fail(AssertionError(""));
        return;
      }
      session.Append(ChatMessage(System, systemContent.value));
    } else if given.Some? {
      session := given.value;
    }
  }

  /** A caller-supplied post-processing hook; it may raise. */
  type PostProcess = string -> Result<string, Error>

  /** The last step of every adapter's call: the backend's text is stripped
      and, when a hook is given, passed through it. */
  function FinishReply(raw: string, postProcess: Option<PostProcess>): (r: Result<string, Error>)
    ensures postProcess.None? ==> r.Ok? && r.value == PyStr.Strip(raw)
    ensures postProcess.None? && r.value != [] ==> !PyStr.IsSpace(r.value[0]) && !PyStr.IsSpace(r.value[|r.value| - 1])
    ensures postProcess.Some? ==> r == postProcess.value(PyStr.Strip(raw))
  {
    var text := PyStr.Strip(raw);
    PyStr.StripSpec(raw);
    if postProcess.None? then Ok(text) else postProcess.value(text)
  }

  /** What an adapter call leaves behind: the reply (or what it raised) and
      the session's messages afterwards. */
  datatype CallOutcome = CallOutcome(reply: Result<string, Error>, session: seq<ChatMessage>)

  /** The session after a call that appended `message` and then either
      failed or produced `reply`. */
  function SessionAfterCall(before: seq<ChatMessage>, message: string, reply: Result<string, Error>): seq<ChatMessage>
  {
    before + [ChatMessage(User, message)]
      + (if reply.Ok? then [ChatMessage(Assistant, reply.value)] else [])
  }
}
