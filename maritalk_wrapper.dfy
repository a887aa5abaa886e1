/**
  The MariTalk adapter: the session is sent as role/content records with
  the generation options as keyword arguments, a generic `stop` list is
  folded into the service's `stopping_tokens`, and the text returned is
  stripped and optionally post-processed before it joins the session.
 */
module MariTalkWrapper {
  import opened Wrappers
  import opened Exceptions
  import opened BaseWrapper
  import opened GenerationParams
  import opened ChatRequests
  import PyStr

  const TEMPERATURE: string := "temperature"
  const MAX_TOKENS: string := "max_tokens"
  const TOP_P: string := "top_p"
  const DO_SAMPLE: string := "do_sample"
  const STOPPING_TOKENS: string := "stopping_tokens"

  /** The adapter's default generation options. */
  function MariTalkDefaults(): (p: Params)
    ensures p.Keys == {TEMPERATURE, MAX_TOKENS, TOP_P, DO_SAMPLE, STOPPING_TOKENS}
    ensures p[STOPPING_TOKENS] == TextList([]) && p[DO_SAMPLE] == Flag(true)
    ensures STOP !in p && MESSAGES !in p
  {
    map[TEMPERATURE := Num(0.0), MAX_TOKENS := Num(1024.0), TOP_P := Num(0.95),
        DO_SAMPLE := Flag(true), STOPPING_TOKENS := TextList([])]
  }

  /** `_kwargs_to_generation_params`: the caller's options over the
      defaults, with `stop` appended to `stopping_tokens` and removed. */
  function NormalizeMariTalk(defaults: Params, kwargs: Params): (r: Result<Params, Error>)
    ensures STOP !in defaults + kwargs ==> r == Ok(defaults + kwargs)
    ensures r.Ok? ==> STOP !in r.value && r.value.Keys == (defaults.Keys + kwargs.Keys) - {STOP}
    ensures r.Ok? ==> forall k :: k in kwargs && k != STOP && k != STOPPING_TOKENS ==> r.value[k] == kwargs[k]
    ensures r.Ok? ==> forall k :: k in defaults && k !in kwargs && k != STOP && k != STOPPING_TOKENS ==> r.value[k] == defaults[k]
  {
    MergeStop(Overlay(defaults, kwargs), STOPPING_TOKENS)
  }

  /** A `stop` list given by the caller ends up after the stop tokens in
      force, and the defaults keep their own (empty) list. */
  lemma StopAppendedToStoppingTokens(kwargs: Params, extra: seq<string>)
    requires STOP in kwargs && kwargs[STOP] == TextList(extra)
    ensures var r := NormalizeMariTalk(MariTalkDefaults(), kwargs);
      && (STOPPING_TOKENS !in kwargs ==> r.Ok? && r.value[STOPPING_TOKENS] == TextList(extra))
      && (STOPPING_TOKENS in kwargs && kwargs[STOPPING_TOKENS].TextList? ==>
            r.Ok? && r.value[STOPPING_TOKENS] == TextList(kwargs[STOPPING_TOKENS].items + extra))
      && (STOPPING_TOKENS in kwargs && !kwargs[STOPPING_TOKENS].TextList? ==> r.Err?)
  {
    var merged := Overlay(MariTalkDefaults(), kwargs);
    assert STOPPING_TOKENS !in kwargs ==> merged[STOPPING_TOKENS] == TextList([]);
    assert [] + extra == extra;
  }

  /** The service's behaviour: the text it generates for a request, or the
      exception it raises. */
  type MariTalkBackend = ChatRequest -> Result<string, BackendException>

  /** `_chat_completion`: `model.generate(messages=..., **params)`. */
  function Generate(backend: MariTalkBackend, session: seq<ChatMessage>, params: Params): (r: Result<string, Error>)
    ensures MESSAGES in params ==> r == Err(DuplicateKeyword(MESSAGES))
    ensures MESSAGES !in params ==>
      var q := ChatRequest(AsRecords(session), params);
      r == (if backend(q).Ok? then Ok(backend(q).value) else Err(Raised(backend(q).error)))
  {
    match BuildRequest(session, params)
    case Err(e) => Err(e)
    case Ok(q) =>
      match backend(q)
      case Ok(text) => Ok(text)
      case Err(e) => Err(Raised(e))
  }

  /** The whole of `MariTalkChatCompletionWrapper.__call__`: the user
      message is appended before anything can fail, the reply after
      everything has succeeded. */
  function MariTalkCallSpec(defaults: Params, before: seq<ChatMessage>, message: string, kwargs: Params,
                            backend: MariTalkBackend, postProcess: Option<PostProcess>): (o: CallOutcome)
    ensures o.session == SessionAfterCall(before, message, o.reply)
  {
    var withUser := before + [ChatMessage(User, message)];
    match NormalizeMariTalk(defaults, kwargs)
    case Err(e) => CallOutcome(Err(e), withUser)
    case Ok(params) =>
      match Generate(backend, withUser, params)
      case Err(e) => CallOutcome(Err(e), withUser)
      case Ok(raw) =>
        var reply := FinishReply(raw, postProcess);
        CallOutcome(reply, if reply.Ok? then withUser + [ChatMessage(Assistant, reply.value)] else withUser)
  }

  /** Without a hook, a successful call answers with the service's text
      stripped of surrounding whitespace, and the service saw the whole
      session ending with the new user message. */
  lemma MariTalkCallReply(before: seq<ChatMessage>, message: string, kwargs: Params, backend: MariTalkBackend)
    requires MESSAGES !in kwargs && STOP !in kwargs
    ensures var o := MariTalkCallSpec(MariTalkDefaults(), before, message, kwargs, backend, None);
      var q := ChatRequest(AsRecords(before + [ChatMessage(User, message)]), MariTalkDefaults() + kwargs);
      && (backend(q).Ok? ==> o.reply == Ok(PyStr.Strip(backend(q).value)))
      && (backend(q).Err? ==> o.reply == Err(Raised(backend(q).error)))
      && q.messages[|before|] == MessageRecord("user", message)
  {
  }

  /** A reply never starts or ends with whitespace unless the hook adds it. */
  lemma MariTalkReplyStripped(defaults: Params, before: seq<ChatMessage>, message: string, kwargs: Params,
                              backend: MariTalkBackend)
    ensures var o := MariTalkCallSpec(defaults, before, message, kwargs, backend, None);
      o.reply.Ok? && o.reply.value != [] ==>
        !PyStr.IsSpace(o.reply.value[0]) && !PyStr.IsSpace(o.reply.value[|o.reply.value| - 1])
  {
    var withUser := before + [ChatMessage(User, message)];
    var params := NormalizeMariTalk(defaults, kwargs);
    if params.Ok? {
      var raw := Generate(backend, withUser, params.value);
      if raw.Ok? {
        PyStr.StripSpec(raw.value);
      }
    }
  }

  /** `MariTalkChatCompletionWrapper`. */
  class MariTalkChatCompletion {
    const defaults: Params
    var messages: MessageList

    constructor ()
      ensures defaults == MariTalkDefaults()
      ensures fresh(messages) && messages.items == []
    {
      defaults := MariTalkDefaults();
      messages := new MessageList([]);
    }

    /** `new_session` */
    method NewSession(systemContent: Option<string>, given: Option<MessageList>) returns (r: Outcome<Error>)
      modifies this
      ensures systemContent.Some? && given.Some? ==> r == Fail(AssertionError("")) && fresh(messages) && messages.items == []
      ensures systemContent.Some? && given.None? ==>
        r == Pass && fresh(messages) && messages.items == [ChatMessage(System, systemContent.value)]
      ensures systemContent.None? && given.Some? ==> r == Pass && messages == given.value && messages.items == old(given.value.items)
      ensures systemContent.None? && given.None? ==> r == Pass && fresh(messages) && messages.items == []
    {
      messages, r := StartSession(systemContent, given);
    }

    /** `__call__` */
    method Call(message: string, kwargs: Params, backend: MariTalkBackend, postProcess: Option<PostProcess>)
      returns (r: Result<string, Error>)
      modifies messages
      ensures CallOutcome(r, messages.items) == MariTalkCallSpec(defaults, old(messages.items), message, kwargs, backend, postProcess)
    {
      messages.Append(ChatMessage(User, message));
      var params := NormalizeMariTalk(defaults, kwargs);
      if params.Err? {
        return Err(params.error);
      }
      var raw := Generate(backend, messages.items, params.value);
      if raw.Err? {
        return Err(raw.error);
      }
      r := FinishReply(raw.value, postProcess);
      if r.Ok? {
        messages.Append(ChatMessage(Assistant, r.value));
      }
    }
  }
}
