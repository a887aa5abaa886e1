/**
  The adapter for the commercial chat-completion service.  Construction
  checks that an API key is available and accepted.  A call appends the
  user message, sends the session with the caller's options over the
  defaults, retries transient failures with exponential back-off, takes the
  first choice, strips and post-processes it and appends the reply.

  The service is a parameter: `attempt(n)` is what the `n`-th attempt of a
  request got back, `rand(n)` is the `n`-th draw of `random.random()`, and
  the delays slept are returned instead of slept.
 */
module OpenAIWrapper {
  import opened Wrappers
  import opened Exceptions
  import opened BaseWrapper
  import opened GenerationParams
  import opened ChatRequests
  import PyStr

  /** What the service answered: its choices, of which the first is used. */
  datatype Completion = Completion(choices: seq<string>)

  datatype Attempt = Completed(completion: Completion) | Failed(exception: BackendException)

  /** The exception kinds that are worth another attempt: the five transport
      kinds, and neither a rejected key nor any other exception. */
  function IsRetryable(e: BackendException): (r: bool)
    ensures r <==> !e.ClientAuthenticationError? && !e.Other?
  {
    e.Timeout? || e.APIError? || e.APIConnectionError? || e.RateLimitError? || e.ServiceUnavailableError?
  }

  // ---------------------------------------------------------------------------
  // Construction
  // ---------------------------------------------------------------------------

  /** `check_api_key`: listing the models with a rejected key is reported as
      AuthenticationError; any other failure propagates. */
  function CheckApiKey(listing: Outcome<BackendException>): (r: Outcome<Error>)
    ensures r == Pass <==> listing == Pass
    ensures listing == Fail(ClientAuthenticationError) ==> r == Fail(AuthenticationError)
    ensures listing.Fail? && listing.error != ClientAuthenticationError ==> r == Fail(Raised(listing.error))
  {
    match listing
    case Pass => Pass
    case Fail(e) => if e == ClientAuthenticationError then Fail(AuthenticationError) else Fail(Raised(e))
  }

  /** The checks of `__init__`: without an explicit key one must be in the
      environment; the key in use must then be accepted. */
  function InitCheck(apiKey: Option<string>, envHasKey: bool, listing: Outcome<BackendException>): (r: Outcome<Error>)
    ensures r == Pass <==> (apiKey.Some? || envHasKey) && listing == Pass
    ensures apiKey.None? && !envHasKey ==> r == Fail(AssertionError(""))
  {
    if apiKey.None? && !envHasKey then Fail(AssertionError("")) else CheckApiKey(listing)
  }

  function OpenAIDefaults(model: string): (p: Params)
    ensures p.Keys == {"model", "temperature", "max_tokens", "top_p", "frequency_penalty", "presence_penalty"}
    ensures p["model"] == Text(model)
  {
    map["model" := Text(model), "temperature" := Num(0.0), "max_tokens" := Num(1024.0), "top_p" := Num(1.0),
        "frequency_penalty" := Num(0.0), "presence_penalty" := Num(0.0)]
  }

  // ---------------------------------------------------------------------------
  // Retrying with exponential back-off
  // ---------------------------------------------------------------------------

  datatype BackoffConfig = BackoffConfig(initialDelay: real, exponentialBase: real, jitter: bool, maxRetries: int)

  const DEFAULT_BACKOFF: BackoffConfig := BackoffConfig(1.0, 2.0, true, 10)

  /** `delay *= exponential_base * (1 + jitter * random.random())` */
  function NextDelay(cfg: BackoffConfig, delay: real, draw: real): real
  {
    delay * (cfg.exponentialBase * (1.0 + (if cfg.jitter then draw else 0.0)))
  }

  function RetriesExceeded(cfg: BackoffConfig): Error
  {
    GenericException("Maximum number of retries (" + PyStr.IntToString(cfg.maxRetries) + ") exceeded.")
  }

  /** The result of the retry loop, the number of attempts it made and the
      delays it slept, in order. */
  datatype BackoffRun = BackoffRun(result: Result<Completion, Error>, attempts: nat, sleeps: seq<real>)

  /** The retry loop from the point where `retries` attempts have failed
      and the current delay is `delay`. */
  function BackoffFrom(cfg: BackoffConfig, attempt: nat -> Attempt, rand: nat -> real,
                       retries: nat, delay: real): (run: BackoffRun)
    ensures run.attempts == retries + 1 + |run.sleeps|
    decreases cfg.maxRetries - retries
  {
    match attempt(retries)
    case Completed(c) => BackoffRun(Ok(c), retries + 1, [])
    case Failed(e) =>
      if !IsRetryable(e) then BackoffRun(Err(Raised(e)), retries + 1, [])
      else if retries + 1 > cfg.maxRetries then BackoffRun(Err(RetriesExceeded(cfg)), retries + 1, [])
      else
        var next := NextDelay(cfg, delay, rand(retries));
        var rest := BackoffFrom(cfg, attempt, rand, retries + 1, next);
        BackoffRun(rest.result, rest.attempts, [next] + rest.sleeps)
  }

  /** The whole retry loop. */
  function Backoff(cfg: BackoffConfig, attempt: nat -> Attempt, rand: nat -> real): BackoffRun
  {
    BackoffFrom(cfg, attempt, rand, 0, cfg.initialDelay)
  }

  /** `_completions_with_backoff`: attempt, and on a retryable failure count
      it, give up past `max_retries`, grow the delay and sleep it. */
  method CompletionsWithBackoff(cfg: BackoffConfig, attempt: nat -> Attempt, rand: nat -> real)
    returns (result: Result<Completion, Error>, attempts: nat, sleeps: seq<real>)
    ensures Backoff(cfg, attempt, rand) == BackoffRun(result, attempts, sleeps)
  {
    var numRetries: nat := 0;
    var delay := cfg.initialDelay;
    sleeps := [];
    while true
      invariant var rest := BackoffFrom(cfg, attempt, rand, numRetries, delay);
        Backoff(cfg, attempt, rand) == BackoffRun(rest.result, rest.attempts, sleeps + rest.sleeps)
      decreases cfg.maxRetries - numRetries
    {
      var answer := attempt(numRetries);
      if answer.Completed? {
        return Ok(answer.completion), numRetries + 1, sleeps;
      }
      var e := answer.exception;
      if !IsRetryable(e) {
        return Err(Raised(e)), numRetries + 1, sleeps;
      }
      ghost var before := BackoffFrom(cfg, attempt, rand, numRetries, delay);
      numRetries := numRetries + 1;
      if numRetries > cfg.maxRetries {
        return Err(RetriesExceeded(cfg)), numRetries, sleeps;
      }
      delay := NextDelay(cfg, delay, rand(numRetries - 1));
      assert before.sleeps == [delay] + BackoffFrom(cfg, attempt, rand, numRetries, delay).sleeps;
      sleeps := sleeps + [delay];
    }
  }

  /** The loop makes at most `max_retries + 1` attempts and sleeps once
      between consecutive attempts. */
  lemma {:induction false} BackoffBounded(cfg: BackoffConfig, attempt: nat -> Attempt, rand: nat -> real,
                                          retries: nat, delay: real)
    ensures var run := BackoffFrom(cfg, attempt, rand, retries, delay);
      && run.attempts == retries + 1 + |run.sleeps|
      && (retries < cfg.maxRetries ==> run.attempts <= cfg.maxRetries + 1)
      && (retries >= cfg.maxRetries ==> run.attempts == retries + 1)
    decreases cfg.maxRetries - retries
  {
    match attempt(retries)
    case Completed(c) =>
    case Failed(e) =>
      if IsRetryable(e) && retries + 1 <= cfg.maxRetries {
        BackoffBounded(cfg, attempt, rand, retries + 1, NextDelay(cfg, delay, rand(retries)));
      }
  }

  /** Failing retryably every time exhausts the retries: exactly
      `max_retries + 1` attempts and `max_retries` sleeps, then the
      "Maximum number of retries" exception. */
  lemma {:induction false} BackoffExhausted(cfg: BackoffConfig, attempt: nat -> Attempt, rand: nat -> real,
                                            retries: nat, delay: real)
    requires retries <= cfg.maxRetries
    requires forall n :: attempt(n).Failed? && IsRetryable(attempt(n).exception)
    ensures var run := BackoffFrom(cfg, attempt, rand, retries, delay);
      && run.result == Err(RetriesExceeded(cfg))
      && run.attempts == cfg.maxRetries + 1
      && |run.sleeps| == cfg.maxRetries - retries
    decreases cfg.maxRetries - retries
  {
    if retries + 1 <= cfg.maxRetries {
      BackoffExhausted(cfg, attempt, rand, retries + 1, NextDelay(cfg, delay, rand(retries)));
    }
  }

  /** The first completion ends the loop: when the attempts before attempt
      `k` failed retryably, `k` is within the retry budget and attempt `k`
      completes, its completion is returned after `k` attempts and sleeps. */
  lemma {:induction false} BackoffSucceedsAt(cfg: BackoffConfig, attempt: nat -> Attempt, rand: nat -> real,
                                             retries: nat, delay: real, k: nat)
    requires retries <= k <= cfg.maxRetries || retries == k
    requires forall n :: retries <= n < k ==> attempt(n).Failed? && IsRetryable(attempt(n).exception)
    requires attempt(k).Completed?
    ensures var run := BackoffFrom(cfg, attempt, rand, retries, delay);
      && run.result == Ok(attempt(k).completion)
      && run.attempts == k + 1
      && |run.sleeps| == k - retries
    decreases k - retries
  {
    if retries < k {
      BackoffSucceedsAt(cfg, attempt, rand, retries + 1, NextDelay(cfg, delay, rand(retries)), k);
    }
  }

  /** A failure that is not retryable ends the loop at once, unchanged. */
  lemma BackoffNotRetryable(cfg: BackoffConfig, attempt: nat -> Attempt, rand: nat -> real)
    requires attempt(0).Failed? && !IsRetryable(attempt(0).exception)
    ensures Backoff(cfg, attempt, rand) == BackoffRun(Err(Raised(attempt(0).exception)), 1, [])
  {
  }

  /** Each delay slept is the previous one grown by the factor of the draw
      made after the failure before it; the first grows the initial delay. */
  lemma {:induction false} BackoffDelayAt(cfg: BackoffConfig, attempt: nat -> Attempt, rand: nat -> real,
                                          retries: nat, delay: real, i: nat)
    requires i < |BackoffFrom(cfg, attempt, rand, retries, delay).sleeps|
    ensures var s := BackoffFrom(cfg, attempt, rand, retries, delay).sleeps;
      s[i] == NextDelay(cfg, if i == 0 then delay else s[i - 1], rand(retries + i))
    decreases cfg.maxRetries - retries
  {
    match attempt(retries)
    case Completed(c) =>
    case Failed(e) =>
      if IsRetryable(e) && retries + 1 <= cfg.maxRetries && i > 0 {
        var next := NextDelay(cfg, delay, rand(retries));
        var rest := BackoffFrom(cfg, attempt, rand, retries + 1, next).sleeps;
        var s := BackoffFrom(cfg, attempt, rand, retries, delay).sleeps;
        assert s == [next] + rest;
        BackoffDelayAt(cfg, attempt, rand, retries + 1, next, i - 1);
        assert s[i] == rest[i - 1];
        assert s[i - 1] == if i == 1 then next else rest[i - 2];
      }
  }

  function Pow(b: real, n: nat): real
  {
    if n == 0 then 1.0 else b * Pow(b, n - 1)
  }

  /** Without jitter the delays are the initial delay times successive
      powers of the base. */
  lemma BackoffDelaysWithoutJitter(cfg: BackoffConfig, attempt: nat -> Attempt, rand: nat -> real)
    requires !cfg.jitter
    ensures var s := Backoff(cfg, attempt, rand).sleeps;
      forall i :: 0 <= i < |s| ==> s[i] == cfg.initialDelay * Pow(cfg.exponentialBase, i + 1)
  {
    var s := Backoff(cfg, attempt, rand).sleeps;
    var i := 0;
    while i < |s|
      invariant 0 <= i <= |s|
      invariant forall j :: 0 <= j < i ==> s[j] == cfg.initialDelay * Pow(cfg.exponentialBase, j + 1)
    {
      BackoffDelayAt(cfg, attempt, rand, 0, cfg.initialDelay, i);
      i := i + 1;
    }
  }

  lemma MulLess(a: real, b: real, c: real)
    requires a > 0.0 && b < c
    ensures a * b < a * c
  {
    assert a * c - a * b == a * (c - b);
  }

  /** One step grows a positive delay by a factor in [1, 2 * base) for a
      draw in [0, 1) and a base of at least one. */
  lemma StepBounds(cfg: BackoffConfig, delay: real, draw: real)
    requires delay > 0.0 && 0.0 <= draw < 1.0 && cfg.exponentialBase >= 1.0
    ensures delay <= NextDelay(cfg, delay, draw) < 2.0 * cfg.exponentialBase * delay
  {
    var g := 1.0 + (if cfg.jitter then draw else 0.0);
    var f := cfg.exponentialBase * g;
    MulLess(cfg.exponentialBase, g, 2.0);
    assert 1.0 <= f by {
      assert f - 1.0 == (cfg.exponentialBase - 1.0) * g + (g - 1.0);
    }
    MulLess(delay, f, 2.0 * cfg.exponentialBase);
    assert delay * f - delay == delay * (f - 1.0);
    assert NextDelay(cfg, delay, draw) == delay * f;
  }

  /** With draws in [0, 1) and a positive initial delay every delay slept
      is positive. */
  lemma BackoffDelaysPositive(cfg: BackoffConfig, attempt: nat -> Attempt, rand: nat -> real)
    requires forall n :: 0.0 <= rand(n) < 1.0
    requires cfg.initialDelay > 0.0 && cfg.exponentialBase >= 1.0
    ensures var s := Backoff(cfg, attempt, rand).sleeps;
      forall i :: 0 <= i < |s| ==> s[i] > 0.0
  {
    var s := Backoff(cfg, attempt, rand).sleeps;
    var i := 0;
    while i < |s|
      invariant 0 <= i <= |s|
      invariant forall j :: 0 <= j < i ==> s[j] > 0.0
    {
      BackoffDelayAt(cfg, attempt, rand, 0, cfg.initialDelay, i);
      StepBounds(cfg, if i == 0 then cfg.initialDelay else s[i - 1], rand(i));
      i := i + 1;
    }
  }

  /** With draws in [0, 1), a positive initial delay and a base of at least
      one, the delays never shrink, and each is less than twice the base
      times the one before. */
  lemma BackoffDelaysGrow(cfg: BackoffConfig, attempt: nat -> Attempt, rand: nat -> real, i: nat)
    requires forall n :: 0.0 <= rand(n) < 1.0
    requires cfg.initialDelay > 0.0 && cfg.exponentialBase >= 1.0
    requires 0 < i < |Backoff(cfg, attempt, rand).sleeps|
    ensures var s := Backoff(cfg, attempt, rand).sleeps;
      s[i - 1] <= s[i] < 2.0 * cfg.exponentialBase * s[i - 1]
  {
    BackoffDelaysPositive(cfg, attempt, rand);
    BackoffDelayAt(cfg, attempt, rand, 0, cfg.initialDelay, i);
    var s := Backoff(cfg, attempt, rand).sleeps;
    StepBounds(cfg, s[i - 1], rand(i));
  }

  // ---------------------------------------------------------------------------
  // A call
  // ---------------------------------------------------------------------------

  const REQUEST_TIMEOUT: string := "request_timeout"

  /** `ChatCompletion.create(messages=..., **params, request_timeout=60)` */
  function OpenAIRequest(session: seq<ChatMessage>, params: Params): (r: Result<ChatRequest, Error>)
    ensures r.Ok? <==> MESSAGES !in params && REQUEST_TIMEOUT !in params
    ensures r.Ok? ==>
      && r.value.messages == AsRecords(session)
      && r.value.params == params[REQUEST_TIMEOUT := Num(60.0)]
  {
    if MESSAGES !in params && REQUEST_TIMEOUT in params then Err(DuplicateKeyword(REQUEST_TIMEOUT))
    else BuildRequest(session, params[REQUEST_TIMEOUT := Num(60.0)])
  }

  /** The service's behaviour: the answer to the `n`-th attempt of a request. */
  type ChatBackend = (ChatRequest, nat) -> Attempt

  /** The answers to the successive attempts of one request. */
  function AttemptsOf(backend: ChatBackend, request: ChatRequest): nat -> Attempt
  {
    (n: nat) => backend(request, n)
  }

  /** `completion.choices[0].message.content` */
  function FirstChoice(c: Completion): (r: Result<string, Error>)
    ensures c.choices == [] ==> r == Err(IndexError)
    ensures c.choices != [] ==> r == Ok(c.choices[0])
  {
    if c.choices == [] then Err(IndexError) else Ok(c.choices[0])
  }

  /** The whole of `OpenAIChatCompletionWrapper.__call__`. */
  function OpenAICallSpec(defaults: Params, before: seq<ChatMessage>, message: string, kwargs: Params,
                          backend: ChatBackend, rand: nat -> real, postProcess: Option<PostProcess>): (o: CallOutcome)
    ensures o.session == SessionAfterCall(before, message, o.reply)
  {
    var withUser := before + [ChatMessage(User, message)];
    match OpenAIRequest(withUser, Overlay(defaults, kwargs))
    case Err(e) => CallOutcome(Err(e), withUser)
    case Ok(request) =>
      match Backoff(DEFAULT_BACKOFF, AttemptsOf(backend, request), rand).result
      case Err(e) => CallOutcome(Err(e), withUser)
      case Ok(completion) =>
        match FirstChoice(completion)
        case Err(e) => CallOutcome(Err(e), withUser)
        case Ok(raw) =>
          var reply := FinishReply(raw, postProcess);
          CallOutcome(reply, if reply.Ok? then withUser + [ChatMessage(Assistant, reply.value)] else withUser)
  }

  /** The delays a call sleeps. */
  function OpenAICallSleeps(defaults: Params, before: seq<ChatMessage>, message: string, kwargs: Params,
                            backend: ChatBackend, rand: nat -> real): seq<real>
  {
    match OpenAIRequest(before + [ChatMessage(User, message)], Overlay(defaults, kwargs))
    case Err(_) => []
    case Ok(request) => Backoff(DEFAULT_BACKOFF, AttemptsOf(backend, request), rand).sleeps
  }

  lemma DefaultRetriesMessage()
    ensures RetriesExceeded(DEFAULT_BACKOFF) == GenericException("Maximum number of retries (10) exceeded.")
  {
    assert PyStr.NatToString(1) == "1";
    assert PyStr.NatToString(10) == "10";
  }

  /** A service that keeps failing transiently makes the call give up
      after ten retries, having slept ten times; the session keeps the user
      message. */
  lemma OpenAICallGivesUp(defaults: Params, before: seq<ChatMessage>, message: string, kwargs: Params,
                          backend: ChatBackend, rand: nat -> real, postProcess: Option<PostProcess>)
    requires MESSAGES !in Overlay(defaults, kwargs) && REQUEST_TIMEOUT !in Overlay(defaults, kwargs)
    requires forall q, n :: backend(q, n).Failed? && IsRetryable(backend(q, n).exception)
    ensures var o := OpenAICallSpec(defaults, before, message, kwargs, backend, rand, postProcess);
      && o.reply == Err(GenericException("Maximum number of retries (10) exceeded."))
      && o.session == before + [ChatMessage(User, message)]
      && |OpenAICallSleeps(defaults, before, message, kwargs, backend, rand)| == 10
  {
    var request := OpenAIRequest(before + [ChatMessage(User, message)], Overlay(defaults, kwargs)).value;
    BackoffExhausted(DEFAULT_BACKOFF, AttemptsOf(backend, request), rand, 0, 1.0);
    DefaultRetriesMessage();
  }

  /** A call whose attempts before attempt `k` fail transiently, with `k`
      within the retry budget, and whose attempt `k` completes returns that
      completion's first choice, stripped and post-processed, and appends it
      as the assistant's message; it sleeps once per failed attempt.  A
      completion without choices raises IndexError and keeps the user
      message. */
  lemma OpenAICallReply(defaults: Params, before: seq<ChatMessage>, message: string, kwargs: Params,
                        backend: ChatBackend, rand: nat -> real, postProcess: Option<PostProcess>, k: nat)
    requires MESSAGES !in Overlay(defaults, kwargs) && REQUEST_TIMEOUT !in Overlay(defaults, kwargs)
    requires k <= DEFAULT_BACKOFF.maxRetries
    requires var q := OpenAIRequest(before + [ChatMessage(User, message)], Overlay(defaults, kwargs)).value;
      && (forall n: nat :: n < k ==> backend(q, n).Failed? && IsRetryable(backend(q, n).exception))
      && backend(q, k).Completed?
    ensures var q := OpenAIRequest(before + [ChatMessage(User, message)], Overlay(defaults, kwargs)).value;
      var c := backend(q, k).completion;
      var o := OpenAICallSpec(defaults, before, message, kwargs, backend, rand, postProcess);
      && o.reply == (if c.choices == [] then Err(IndexError) else FinishReply(c.choices[0], postProcess))
      && (c.choices != [] && postProcess.None? ==> o.reply == Ok(PyStr.Strip(c.choices[0])))
      && o.session == before + [ChatMessage(User, message)]
                      + (if o.reply.Ok? then [ChatMessage(Assistant, o.reply.value)] else [])
      && |OpenAICallSleeps(defaults, before, message, kwargs, backend, rand)| == k
  {
    var q := OpenAIRequest(before + [ChatMessage(User, message)], Overlay(defaults, kwargs)).value;
    BackoffSucceedsAt(DEFAULT_BACKOFF, AttemptsOf(backend, q), rand, 0, DEFAULT_BACKOFF.initialDelay, k);
  }

  /** The service receives the whole session, ending with the new user
      message, and the caller's options over the defaults. */
  lemma OpenAIRequestCarriesSession(defaults: Params, before: seq<ChatMessage>, message: string, kwargs: Params)
    requires MESSAGES !in Overlay(defaults, kwargs) && REQUEST_TIMEOUT !in Overlay(defaults, kwargs)
    ensures var q := OpenAIRequest(before + [ChatMessage(User, message)], Overlay(defaults, kwargs));
      && q.Ok?
      && |q.value.messages| == |before| + 1
      && q.value.messages[|before|] == MessageRecord("user", message)
      && (forall k :: k in kwargs ==> q.value.params[k] == kwargs[k])
  {
  }

  /** `OpenAIChatCompletionWrapper`. */
  class OpenAIChatCompletion {
    const defaults: Params
    var messages: MessageList

    constructor (model: string)
      ensures defaults == OpenAIDefaults(model)
      ensures fresh(messages) && messages.items == []
    {
      defaults := OpenAIDefaults(model);
      messages := new MessageList([]);
    }

    /** `__init__`, which raises when the key checks fail. */
    static method Create(model: string, apiKey: Option<string>, envHasKey: bool, listing: Outcome<BackendException>)
      returns (r: Result<OpenAIChatCompletion, Error>)
      ensures r.Ok? <==> InitCheck(apiKey, envHasKey, listing) == Pass
      ensures r.Err? ==> Fail(r.error) == InitCheck(apiKey, envHasKey, listing)
      ensures r.Ok? ==> fresh(r.value) && r.value.defaults == OpenAIDefaults(model)
    {
      var check := InitCheck(apiKey, envHasKey, listing);
      if check.Fail? {
        return Err(check.error);
      }
      var w := new OpenAIChatCompletion(model);
      return Ok(w);
    }

    /** `new_session` */
    method NewSession(systemContent: Option<string>, given: Option<MessageList>) returns (r: Outcome<Error>)
      modifies this
      ensures systemContent.Some? && given.Some? ==> r == Fail(AssertionError("")) && fresh(messages) && messages.items == []
      ensures systemContent.Some? && given.None? ==>
        r == Pass && fresh(messages) && messages.items == [ChatMessage(System, systemContent.value)]
      ensures systemContent.None? && given.Some? ==> r == Pass && messages == given.value && messages.items == old(given.value.items)
      ensures systemContent.None? && given.None? ==> r == Pass && fresh(messages) && messages.items == []
    {
      messages, r := StartSession(systemContent, given);
    }

    /** `__call__`: one turn, returning also the delays slept. */
    method Call(message: string, kwargs: Params, backend: ChatBackend, rand: nat -> real,
                postProcess: Option<PostProcess>) returns (r: Result<string, Error>, sleeps: seq<real>)
      modifies messages
      ensures CallOutcome(r, messages.items)
           == OpenAICallSpec(defaults, old(messages.items), message, kwargs, backend, rand, postProcess)
      ensures sleeps == OpenAICallSleeps(defaults, old(messages.items), message, kwargs, backend, rand)
    {
      ghost var before := messages.items;
      messages.Append(ChatMessage(User, message));
      var params := Overlay(defaults, kwargs);
      var request := OpenAIRequest(messages.items, params);
      if request.Err? {
        return Err(request.error), [];
      }
      var completion, attempts;
      completion, attempts, sleeps := CompletionsWithBackoff(DEFAULT_BACKOFF, AttemptsOf(backend, request.value), rand);
      if completion.Err? {
        return Err(completion.error), sleeps;
      }
      var raw := FirstChoice(completion.value);
      if raw.Err? {
        return Err(raw.error), sleeps;
      }
      r := FinishReply(raw.value, postProcess);
      if r.Ok? {
        messages.Append(ChatMessage(Assistant, r.value));
      }
    }
  }
}
