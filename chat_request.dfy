/**
  The request the commercial clients receive: the session's messages as
  role/content records followed by the generation parameters as keyword
  arguments.  Python refuses a keyword given twice, so a parameter named
  like one of the call's own keywords makes the call raise TypeError.
 */
module ChatRequests {
  import opened Wrappers
  import opened Exceptions
  import opened BaseWrapper
  import opened GenerationParams

  datatype ChatRequest = ChatRequest(messages: seq<MessageRecord>, params: Params)

  const MESSAGES: string := "messages"

  function DuplicateKeyword(key: string): Error
  {
    TypeError("got multiple values for keyword argument '" + key + "'")
  }

  /** `client(messages=[asdict(m) for m in session], **params)` */
  function BuildRequest(session: seq<ChatMessage>, params: Params): (r: Result<ChatRequest, Error>)
    ensures r.Ok? <==> MESSAGES !in params
    ensures r.Ok? ==> r.value.messages == AsRecords(session) && r.value.params == params
    ensures r.Err? ==> r == Err(DuplicateKeyword(MESSAGES))
  {
    if MESSAGES in params then Err(DuplicateKeyword(MESSAGES))
    else Ok(ChatRequest(AsRecords(session), params))
  }
}
