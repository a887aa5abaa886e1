/**
  The adapter for chat models served from managed inference endpoints
  (Llama-2 and Falcon).  A call appends the user message, normalises the
  generation parameters, renders the session with the model's template,
  trims the token budget to the context, asks the endpoint for a
  generation, explains a failure by probing the endpoint's state, unwraps
  the generated text, strips and post-processes it and appends the reply.

  The endpoint itself is a parameter: `Backend` gives the generation for a
  prompt and parameters (or the exception the client raised), and `Probe`
  is what the endpoint-status request answered.
 */
module HFWrapper {
  import opened Wrappers
  import opened Exceptions
  import opened BaseWrapper
  import opened GenerationParams
  import opened HFPrompts
  import PyStr

  datatype HFVariant = Llama2 | Falcon

  const CONTEXT_LENGTH: int := 4096
  const MAX_NEW_TOKENS: string := "max_new_tokens"
  const TOP_P: string := "top_p"
  const TEMPERATURE: string := "temperature"
  const STOP_SEQUENCES: string := "stop_sequences"

  /** The default generation parameters of each variant; Falcon also stops
      at the word "User". */
  function HFDefaults(variant: HFVariant): (p: Params)
    ensures p.Keys == {MAX_NEW_TOKENS, TOP_P, TEMPERATURE, STOP_SEQUENCES}
    ensures p[STOP_SEQUENCES] == TextList(if variant == Llama2 then [EOS] else [EOS, "User"])
  {
    map[MAX_NEW_TOKENS := Num(1024.0), TOP_P := Num(1.0), TEMPERATURE := Num(0.0),
        STOP_SEQUENCES := TextList(if variant == Llama2 then [EOS] else [EOS, "User"])]
  }

  /** The boundary adjustments: a `top_p` of exactly 0 or 1 and a
      `temperature` of exactly 0 are moved off the values the endpoint
      rejects; other values, and every other option, are kept. */
  function AdjustBoundaries(p: Params): (r: Result<Params, Error>)
    ensures TOP_P !in p ==> r == Err(KeyError(TOP_P))
    ensures TOP_P in p && TEMPERATURE !in p ==> r == Err(KeyError(TEMPERATURE))
    ensures TOP_P in p && TEMPERATURE in p ==> r.Ok?
    ensures r.Ok? ==>
      && r.value.Keys == p.Keys
      && !NumEquals(r.value[TOP_P], 0.0) && !NumEquals(r.value[TOP_P], 1.0)
      && !NumEquals(r.value[TEMPERATURE], 0.0)
      && (!NumEquals(p[TOP_P], 0.0) && !NumEquals(p[TOP_P], 1.0) ==> r.value[TOP_P] == p[TOP_P])
      && (!NumEquals(p[TEMPERATURE], 0.0) ==> r.value[TEMPERATURE] == p[TEMPERATURE])
      && (forall k :: k in p && k != TOP_P && k != TEMPERATURE ==> r.value[k] == p[k])
  {
    if TOP_P !in p then Err(KeyError(TOP_P))
    else
      var p1 := if NumEquals(p[TOP_P], 0.0) then p[TOP_P := Num(0.0002)] else p;
      var p2 := if NumEquals(p1[TOP_P], 1.0) then p1[TOP_P := Num(0.9999999)] else p1;
      if TEMPERATURE !in p2 then Err(KeyError(TEMPERATURE))
      else
        var p3 := if NumEquals(p2[TEMPERATURE], 0.0) then p2[TEMPERATURE := Num(0.001)] else p2;
        Ok(p3)
  }

  /** `_kwargs_to_generation_params`: the caller's options over the
      defaults, the boundary adjustments, then a generic `stop` list
      appended to `stop_sequences`. */
  function NormalizeHF(defaults: Params, kwargs: Params): (r: Result<Params, Error>)
    ensures var p := Overlay(defaults, kwargs);
      && (TOP_P !in p ==> r == Err(KeyError(TOP_P)))
      && (TOP_P in p && TEMPERATURE !in p ==> r == Err(KeyError(TEMPERATURE)))
      && (r.Ok? ==>
            && TOP_P in r.value && TEMPERATURE in r.value && STOP !in r.value
            && r.value.Keys == p.Keys - {STOP}
            && !NumEquals(r.value[TOP_P], 0.0) && !NumEquals(r.value[TOP_P], 1.0)
            && !NumEquals(r.value[TEMPERATURE], 0.0)
            && (!NumEquals(p[TOP_P], 0.0) && !NumEquals(p[TOP_P], 1.0) ==> r.value[TOP_P] == p[TOP_P])
            && (!NumEquals(p[TEMPERATURE], 0.0) ==> r.value[TEMPERATURE] == p[TEMPERATURE])
            && (forall k :: k in r.value && k != TOP_P && k != TEMPERATURE && k != STOP_SEQUENCES ==> r.value[k] == p[k]))
      && (STOP in p && r.Ok? ==>
            && STOP_SEQUENCES in p && PyAdd(p[STOP_SEQUENCES], p[STOP]).Ok?
            && r.value[STOP_SEQUENCES] == PyAdd(p[STOP_SEQUENCES], p[STOP]).value)
      && (STOP !in p && r.Ok? ==> r.value == AdjustBoundaries(p).value)
  {
    match AdjustBoundaries(Overlay(defaults, kwargs))
    case Err(e) => Err(e)
    case Ok(adjusted) => MergeStop(adjusted, STOP_SEQUENCES)
  }

  /** With no caller options the defaults are sent with the boundary values
      moved: `top_p` 0.9999999 and `temperature` 0.001. */
  lemma DefaultsNormalised(variant: HFVariant)
    ensures NormalizeHF(HFDefaults(variant), map[]).Ok?
    ensures var p := NormalizeHF(HFDefaults(variant), map[]).value;
      && p[TOP_P] == Num(0.9999999) && p[TEMPERATURE] == Num(0.001)
      && p[MAX_NEW_TOKENS] == Num(1024.0) && p[STOP_SEQUENCES] == HFDefaults(variant)[STOP_SEQUENCES]
  {
    var d := HFDefaults(variant);
    assert Overlay(d, map[]) == d;
  }

  /** `int(len(prompt) // 2.5)`: the prompt's length in tokens, estimated. */
  function ApproxTokens(promptLength: nat): nat
  {
    (2 * promptLength) / 5
  }

  /** The token budget: when the estimated prompt is longer than
      `max_new_tokens`, the budget becomes what the context has left after
      the prompt; the budget must end up positive.  A non-numeric budget
      cannot be compared and raises TypeError. */
  function ApplyTokenBudget(params: Params, promptLength: nat, contextLength: int): (r: Result<Params, Error>)
    ensures MAX_NEW_TOKENS !in params ==> r == Ok(params)
    ensures MAX_NEW_TOKENS in params && AsNumber(params[MAX_NEW_TOKENS]).None? ==> r.Err? && r.error.TypeError?
    ensures r.Ok? ==>
      && r.value.Keys == params.Keys
      && (forall k :: k in params && k != MAX_NEW_TOKENS ==> r.value[k] == params[k])
    ensures MAX_NEW_TOKENS in params && AsNumber(params[MAX_NEW_TOKENS]).Some? ==>
      var v := AsNumber(params[MAX_NEW_TOKENS]).value;
      var approx := ApproxTokens(promptLength);
      && (approx as real > v ==>
            (r.Ok? <==> contextLength - approx > 0)
            && (r.Ok? ==> r.value[MAX_NEW_TOKENS] == Num((contextLength - approx) as real))
            && (r.Err? ==> r.error == AssertionError("")))
      && (approx as real <= v ==>
            (r.Ok? <==> v > 0.0)
            && (r.Ok? ==> r.value == params)
            && (r.Err? ==> r.error == AssertionError("")))
  {
    if MAX_NEW_TOKENS !in params then Ok(params)
    else
      match AsNumber(params[MAX_NEW_TOKENS])
      case None => Err(TypeError(""))
      case Some(v) =>
        var approx := ApproxTokens(promptLength);
        var budget := if approx as real > v then Num((contextLength - approx) as real) else params[MAX_NEW_TOKENS];
        if AsNumber(budget).value > 0.0 then Ok(params[MAX_NEW_TOKENS := budget])
        else Err(AssertionError(""))
  }

  /** A budget of at most half the context always leaves room for the
      prompt: estimated prompt tokens plus the budget sent never exceed the
      context (the defaults, 1024 of 4096, are such a budget). */
  lemma BudgetFitsContext(params: Params, promptLength: nat, contextLength: int)
    requires MAX_NEW_TOKENS in params && AsNumber(params[MAX_NEW_TOKENS]).Some?
    requires 2.0 * AsNumber(params[MAX_NEW_TOKENS]).value <= contextLength as real
    ensures var r := ApplyTokenBudget(params, promptLength, contextLength);
      r.Ok? ==>
        && AsNumber(r.value[MAX_NEW_TOKENS]).Some?
        && 0.0 < AsNumber(r.value[MAX_NEW_TOKENS]).value
        && ApproxTokens(promptLength) as real + AsNumber(r.value[MAX_NEW_TOKENS]).value <= contextLength as real
  {
  }

  /** What the endpoint-status request answered: the HTTP status and, for
      200, the endpoint's state. */
  datatype Probe = Probe(status: int, state: Option<string>)

  /** The states of an endpoint that is starting up or scaling from zero. */
  const LOADING_STATES: set<string> := {"scaledToZero", "initializing", "updating"}

  /** The exception a failed generation turns into: a paused endpoint is
      reported as disabled, a starting one as loading, anything else is
      re-raised unchanged. */
  function ClassifyFailure(e: BackendException, probe: Probe): (r: Error)
    ensures probe.status != 200 ==> r == Raised(e)
    ensures probe.status == 200 && probe.state == Some("paused") ==> r == DisabledEndpointError
    ensures probe.status == 200 && probe.state.Some? && probe.state.value in LOADING_STATES ==> r == LoadingModelError
    ensures r == DisabledEndpointError ==> probe.status == 200 && probe.state == Some("paused")
    ensures r == LoadingModelError ==> probe.status == 200 && probe.state.Some? && probe.state.value in LOADING_STATES
    ensures r != DisabledEndpointError && r != LoadingModelError ==> r == Raised(e)
  {
    if probe.status == 200 && probe.state == Some("paused") then DisabledEndpointError
    else if probe.status == 200 && probe.state.Some? && probe.state.value in LOADING_STATES then LoadingModelError
    else Raised(e)
  }

  datatype FinishReason = Length | EndOfSequenceToken | StopSequence

  /** What the generation client returned: plain text (a local server), or
      the text with the reason it stopped and its tokens, or what it raised. */
  datatype Generation =
    | PlainText(text: string)
    | Detailed(generatedText: string, finishReason: FinishReason, tokens: seq<string>)
    | GenerationFailed(exception: BackendException)

  type Backend = (string, Params) -> Generation

  /** The text of a generation: a stop sequence that ended it is removed
      from its end; a failure is classified with the probe. */
  function UnwrapGeneration(g: Generation, probe: Probe): (r: Result<string, Error>)
    ensures g.PlainText? ==> r == Ok(g.text)
    ensures g.Detailed? && g.finishReason != StopSequence ==> r == Ok(g.generatedText)
    ensures g.Detailed? && g.finishReason == StopSequence && g.tokens == [] ==> r == Err(IndexError)
    ensures g.Detailed? && g.finishReason == StopSequence && g.tokens != [] ==>
      var stop := g.tokens[|g.tokens| - 1];
      && r.Ok?
      && (PyStr.EndsWith(g.generatedText, stop) ==> r.value + stop == g.generatedText)
      && (!PyStr.EndsWith(g.generatedText, stop) ==> r.value == g.generatedText)
    ensures g.GenerationFailed? ==> r == Err(ClassifyFailure(g.exception, probe))
  {
    match g
    case GenerationFailed(e) => Err(ClassifyFailure(e, probe))
    case PlainText(t) => Ok(t)
    case Detailed(t, reason, tokens) =>
      if reason != StopSequence then Ok(t)
      else if tokens == [] then Err(IndexError)
      else Ok(PyStr.RemoveSuffix(t, tokens[|tokens| - 1]))
  }

  /** A generation that stopped on a stop sequence gives back the text
      before it. */
  lemma UnwrapRemovesStopSequence(body: string, tokens: seq<string>, probe: Probe)
    requires tokens != []
    ensures UnwrapGeneration(Detailed(body + tokens[|tokens| - 1], StopSequence, tokens), probe) == Ok(body)
  {
    PyStr.RemoveSuffixOfAppended(body, tokens[|tokens| - 1]);
  }

  /** The session a call works on once the template ran: Falcon's template
      has put the default system message in front. */
  function SessionAfterFormat(variant: HFVariant, withUser: seq<ChatMessage>): seq<ChatMessage>
  {
    if variant == Falcon then WithDefaultSystem(withUser) else withUser
  }

  /** The prompt of the variant's template for the session with the user
      message. */
  function HFPrompt(variant: HFVariant, withUser: seq<ChatMessage>): Result<string, Error>
  {
    if variant == Falcon then FalconPrompt(WithDefaultSystem(withUser)) else Llama2Prompt(withUser)
  }

  /** The whole of `_HFChatCompletionWrapper.__call__`, as a function of the
      session before the call, the endpoint's behaviour and the hook. */
  function HFCallSpec(variant: HFVariant, contextLength: int, defaults: Params,
                      before: seq<ChatMessage>, message: string, kwargs: Params,
                      backend: Backend, probe: Probe, postProcess: Option<PostProcess>): (o: CallOutcome)
    ensures var withUser := before + [ChatMessage(User, message)];
      && (NormalizeHF(defaults, kwargs).Err? ==> o == CallOutcome(Err(NormalizeHF(defaults, kwargs).error), withUser))
      && (NormalizeHF(defaults, kwargs).Ok? ==>
            o.session == SessionAfterFormat(variant, withUser)
                         + (if o.reply.Ok? then [ChatMessage(Assistant, o.reply.value)] else []))
  {
    var withUser := before + [ChatMessage(User, message)];
    match NormalizeHF(defaults, kwargs)
    case Err(e) => CallOutcome(Err(e), withUser)
    case Ok(params) =>
      var session := SessionAfterFormat(variant, withUser);
      match HFPrompt(variant, withUser)
      case Err(e) => CallOutcome(Err(e), session)
      case Ok(prompt) =>
        match ApplyTokenBudget(params, |prompt|, contextLength)
        case Err(e) => CallOutcome(Err(e), session)
        case Ok(sent) =>
          match UnwrapGeneration(backend(prompt, sent), probe)
          case Err(e) => CallOutcome(Err(e), session)
          case Ok(raw) =>
            var reply := FinishReply(raw, postProcess);
            CallOutcome(reply, if reply.Ok? then session + [ChatMessage(Assistant, reply.value)] else session)
  }

  /** The session shapes a call can leave: the user message alone after a
      parameter error, otherwise the session as the template left it, with
      the reply when there is one. */
  lemma SessionShapes(variant: HFVariant, before: seq<ChatMessage>, message: string,
                      reply: Result<string, Error>, session: seq<ChatMessage>, paramsOk: bool)
    requires var withUser := before + [ChatMessage(User, message)];
      && (!paramsOk ==> session == withUser && reply.Err?)
      && (paramsOk ==> session == SessionAfterFormat(variant, withUser)
                                  + (if reply.Ok? then [ChatMessage(Assistant, reply.value)] else []))
    ensures var plain := SessionAfterCall(before, message, reply);
      && (variant == Llama2 ==> session == plain)
      && (variant == Falcon ==> session == plain || session == [DEFAULT_SYSTEM_MESSAGE] + plain)
      && (before != [] && before[0].role == System ==> session == plain)
  {
    var withUser := before + [ChatMessage(User, message)];
    var tail := if reply.Ok? then [ChatMessage(Assistant, reply.value)] else [];
    assert SessionAfterCall(before, message, reply) == withUser + tail;
    if paramsOk && variant == Falcon && withUser[0].role != System {
      assert session == [DEFAULT_SYSTEM_MESSAGE] + withUser + tail;
    }
    if before != [] && before[0].role == System {
      assert withUser[0] == before[0];
    }
  }

  /** A call records the user message whether or not it succeeds, and the
      reply exactly when it succeeds; the only other change to the session
      is the default system message Falcon's template may put in front. */
  lemma HFCallSession(variant: HFVariant, contextLength: int, defaults: Params,
                      before: seq<ChatMessage>, message: string, kwargs: Params,
                      backend: Backend, probe: Probe, postProcess: Option<PostProcess>)
    ensures var o := HFCallSpec(variant, contextLength, defaults, before, message, kwargs, backend, probe, postProcess);
      var plain := SessionAfterCall(before, message, o.reply);
      && (variant == Llama2 ==> o.session == plain)
      && (variant == Falcon ==> o.session == plain || o.session == [DEFAULT_SYSTEM_MESSAGE] + plain)
      && (before != [] && before[0].role == System ==> o.session == plain)
  {
    var o := HFCallSpec(variant, contextLength, defaults, before, message, kwargs, backend, probe, postProcess);
    SessionShapes(variant, before, message, o.reply, o.session, NormalizeHF(defaults, kwargs).Ok?);
  }

  /** The endpoint is only asked about sessions its template accepts: a
      session that is not a system message followed by alternating turns
      ending with the user fails whatever the endpoint would answer. */
  lemma HFCallRejectsMalformed(variant: HFVariant, contextLength: int, defaults: Params,
                               before: seq<ChatMessage>, message: string, kwargs: Params,
                               backend: Backend, probe: Probe, postProcess: Option<PostProcess>)
    requires !WellFormedChat(WithDefaultSystem(before + [ChatMessage(User, message)]))
    ensures HFCallSpec(variant, contextLength, defaults, before, message, kwargs, backend, probe, postProcess).reply.Err?
  {
    var withUser := before + [ChatMessage(User, message)];
    Llama2Accepts(withUser);
    FalconAccepts(withUser);
  }

  /** Without a hook, a reply has no surrounding whitespace. */
  lemma HFCallReplyStripped(variant: HFVariant, contextLength: int, defaults: Params,
                            before: seq<ChatMessage>, message: string, kwargs: Params,
                            backend: Backend, probe: Probe)
    ensures var o := HFCallSpec(variant, contextLength, defaults, before, message, kwargs, backend, probe, None);
      o.reply.Ok? && o.reply.value != [] ==>
        !PyStr.IsSpace(o.reply.value[0]) && !PyStr.IsSpace(o.reply.value[|o.reply.value| - 1])
  {
    var withUser := before + [ChatMessage(User, message)];
    var params := NormalizeHF(defaults, kwargs);
    if params.Ok? {
      var prompt := HFPrompt(variant, withUser);
      if prompt.Ok? {
        var sent := ApplyTokenBudget(params.value, |prompt.value|, contextLength);
        if sent.Ok? {
          var raw := UnwrapGeneration(backend(prompt.value, sent.value), probe);
          if raw.Ok? {
            PyStr.StripSpec(raw.value);
          }
        }
      }
    }
  }

  /** A paused endpoint is reported as disabled: when the request that
      reaches the endpoint fails and the probe finds it paused, the call
      raises DisabledEndpointError. */
  lemma HFCallPausedEndpoint(variant: HFVariant, contextLength: int, defaults: Params,
                             before: seq<ChatMessage>, message: string, kwargs: Params,
                             backend: Backend, e: BackendException, postProcess: Option<PostProcess>)
    requires NormalizeHF(defaults, kwargs).Ok?
    requires var withUser := before + [ChatMessage(User, message)];
      && HFPrompt(variant, withUser).Ok?
      && ApplyTokenBudget(NormalizeHF(defaults, kwargs).value, |HFPrompt(variant, withUser).value|, contextLength).Ok?
      && backend(HFPrompt(variant, withUser).value,
                 ApplyTokenBudget(NormalizeHF(defaults, kwargs).value, |HFPrompt(variant, withUser).value|, contextLength).value)
         == GenerationFailed(e)
    ensures HFCallSpec(variant, contextLength, defaults, before, message, kwargs, backend, Probe(200, Some("paused")), postProcess).reply
         == Err(DisabledEndpointError)
  {
  }

  /** `HFLlama2ChatCompletionWrapper` / `HFFalconChatCompletionWrapper`: the
      variant fixes the template and the defaults; the adapter owns the
      current session. */
  class HFChatCompletion {
    const variant: HFVariant
    const contextLength: int
    const defaults: Params
    var messages: MessageList

    constructor (variant: HFVariant)
      ensures this.variant == variant && contextLength == CONTEXT_LENGTH
      ensures defaults == HFDefaults(variant)
      ensures fresh(messages) && messages.items == []
    {
      this.variant := variant;
      contextLength := CONTEXT_LENGTH;
      defaults := HFDefaults(variant);
      messages := new MessageList([]);
    }

    /** `new_session`: a fresh session, a one-message session with the
        system prompt, or the caller's list itself. */
    method NewSession(systemContent: Option<string>, given: Option<MessageList>) returns (r: Outcome<Error>)
      modifies this
      ensures systemContent.Some? && given.Some? ==> r == Fail(AssertionError("")) && fresh(messages) && messages.items == []
      ensures systemContent.Some? && given.None? ==>
        r == Pass && fresh(messages) && messages.items == [ChatMessage(System, systemContent.value)]
      ensures systemContent.None? && given.Some? ==> r == Pass && messages == given.value && messages.items == old(given.value.items)
      ensures systemContent.None? && given.None? ==> r == Pass && fresh(messages) && messages.items == []
    {
      messages, r := StartSession(systemContent, given);
    }

    /** `__call__`: one turn of the conversation. */
    method Call(message: string, kwargs: Params, backend: Backend, probe: Probe,
                postProcess: Option<PostProcess>) returns (r: Result<string, Error>)
      modifies messages
      ensures CallOutcome(r, messages.items)
           == HFCallSpec(variant, contextLength, defaults, old(messages.items), message, kwargs, backend, probe, postProcess)
    {
      messages.Append(ChatMessage(User, message));
      var params := NormalizeHF(defaults, kwargs);
      if params.Err? {
        return Err(params.error);
      }
      var prompt;
      if variant == Llama2 {
        prompt := Llama2Prompt(messages.items);
      } else {
        prompt := FormatFalcon(messages);
      }
      if prompt.Err? {
        return Err(prompt.error);
      }
      var sent := ApplyTokenBudget(params.value, |prompt.value|, contextLength);
      if sent.Err? {
        return Err(sent.error);
      }
      var raw := UnwrapGeneration(backend(prompt.value, sent.value), probe);
      if raw.Err? {
        return Err(raw.error);
      }
      r := FinishReply(raw.value, postProcess);
      if r.Ok? {
        messages.Append(ChatMessage(Assistant, r.value));
      }
    }
  }
}
