# llm-enem core, modelled in Dafny

llm-enem evaluates chat language models on the ENEM 2022 exam, Brazil's
national high-school exam. This project models the core of that evaluation:

- **The chat-completion adapters.** These cover the managed-endpoint Llama-2
  and Falcon models, the commercial chat-completion service, and the
  MariTalk service. Each adapter keeps a session of validated chat messages
  and answers one user message per call. To do that it:
  - merges the caller's generation options over its defaults;
  - renders the session with the model's prompt template (endpoint
    adapters);
  - trims the token budget;
  - retries transient failures with exponential back-off (commercial
    service);
  - explains an endpoint failure by probing the endpoint's state.

  It then strips the text, post-processes it and appends the reply.
- **The conversation logger.** This covers its console and HTML renderings,
  its in-memory buffer and its one-instance rule.
- **The evaluation helpers.** These cover:
  - choosing an adapter by model name;
  - grouping the question records by area and id;
  - reading the chosen alternative out of an answer, as the two regular
    expressions do;
  - counting correct predictions per area and in total.
- **The data-file tools.** These cover:
  - the area of a question, from the number at the end of its id;
  - the annotation loop that gives every document its area and prompt;
  - the check that the few-shot examples of a prompt do not leak the query.

Files:

- `wrappers.dfy`: Option and Result.
- `exceptions.dfy`: the exceptions that cross the adapter boundary.
- `pystr.dfy`: the Python string operations the code uses.
- `base_wrapper.dfy`: chat messages, the message list and `new_session`.
- `generation_params.dfy`: option dicts.
- `chat_request.dfy`: the request a client receives.
- `hf_prompts.dfy`: the Llama-2 and Falcon templates.
- `hf_wrapper.dfy`, `openai_wrapper.dfy`, `maritalk_wrapper.dfy`: the three adapters.
- `logger.dfy`: the logger.
- `answer_extraction.dfy`: `get_formated_answer`.
- `evaluator.dfy`: the rest of the evaluator.
- `write_out.dfy`: the annotation script.
- `leakage.dfy`: the leakage check.

Everything outside the program is a parameter of the model:

- the endpoint, the two services and the endpoint-status probe;
- the random draws;
- the clock;
- the JSON encoder;
- the HTML template;
- the few-shot prompt builder.

## Model

| member | source | states |
|---|---|---|
| BaseWrapper.ParseRole | code/chat_completion_wrapper/base_chat_completion_wrapper.py:19-24 | a role name is accepted exactly when it is "system", "assistant" or "user", and the role found carries that name |
| BaseWrapper.RoleNameRoundTrip | code/chat_completion_wrapper/base_chat_completion_wrapper.py:19 | every role's name parses back to that role |
| BaseWrapper.NewChatMessage | code/chat_completion_wrapper/base_chat_completion_wrapper.py:17-27 | a message is built exactly when the role is one of the three and the content is a string; a bad role raises the role TypeError first, and a non-string content raises the content TypeError |
| BaseWrapper.AsRecords | code/chat_completion_wrapper/openai_chat_completion_wrapper.py:86 | the records sent are one per message, in order, each with the role's name and the content |
| BaseWrapper.MessageList.constructor | code/chat_completion_wrapper/hf_chat_completion_wrapper.py:42 | a new list holds the given messages |
| BaseWrapper.MessageList.Append | code/chat_completion_wrapper/hf_chat_completion_wrapper.py:93 | the message is added at the end and nothing else changes |
| BaseWrapper.MessageList.InsertFirst | code/chat_completion_wrapper/hf_chat_completion_wrapper.py:221 | the message is added at the front and nothing else changes |
| BaseWrapper.StartSession | code/chat_completion_wrapper/hf_chat_completion_wrapper.py:41-57 | a system prompt gives a fresh one-message session; a system prompt together with a transcript fails the assertion and leaves a fresh empty list; a transcript alone becomes the session by reference, contents unchanged; nothing gives a fresh empty session |
| BaseWrapper.FinishReply | code/chat_completion_wrapper/hf_chat_completion_wrapper.py:144-149 | without a hook the reply is the backend text stripped, so it has no surrounding whitespace; with a hook it is whatever the hook makes of the stripped text, error included |
| GenerationParams.AsNumber | code/chat_completion_wrapper/hf_chat_completion_wrapper.py:63-67 | exactly numbers and booleans have a numeric value |
| GenerationParams.Overlay | code/chat_completion_wrapper/hf_chat_completion_wrapper.py:60 | the merged options have the keys of both dicts; every caller option wins, and every other default is kept |
| GenerationParams.PyAdd | code/chat_completion_wrapper/hf_chat_completion_wrapper.py:72 | adding succeeds exactly for two lists, two strings or two numbers; two lists concatenate in order |
| GenerationParams.MergeStop | code/chat_completion_wrapper/hf_chat_completion_wrapper.py:70-73 | without `stop` the options are unchanged; with it, a missing native key raises KeyError, the native list becomes native + stop, `stop` is removed and every other option is kept |
| ChatRequests.BuildRequest | code/chat_completion_wrapper/maritalk_chat_completion_wrapper.py:56-59 | the request carries the session's records and the options; an option named `messages` raises the duplicate-keyword TypeError, and only it does |
| HFPrompts.WithDefaultSystem | code/chat_completion_wrapper/hf_chat_completion_wrapper.py:173-179 | a non-empty session starts with a system message; a session that already does is unchanged; otherwise the default system message is put in front of the unchanged session |
| HFPrompts.WellFormedChatIff | code/chat_completion_wrapper/hf_chat_completion_wrapper.py:186-191 | a well-formed chat is a system message followed by turns that alternate user/assistant from the user, with an even total length |
| HFPrompts.Step2 | code/chat_completion_wrapper/hf_chat_completion_wrapper.py:196-197 | the slice `s[start::2]` has the right length and holds exactly the elements at start, start + 2, ... |
| HFPrompts.SliceChecksIff | code/chat_completion_wrapper/hf_chat_completion_wrapper.py:224-229 | the two role checks on the even and odd slices hold exactly when the roles alternate user/assistant from the offset |
| HFPrompts.MergeSystem | code/chat_completion_wrapper/hf_chat_completion_wrapper.py:180-185 | merging is one message shorter, its first message has the first turn's role, and every later message is the original one after it |
| HFPrompts.Llama2Render | code/chat_completion_wrapper/hf_chat_completion_wrapper.py:186-203 | rendering succeeds exactly when the merged roles alternate from user and the last message is from the user |
| HFPrompts.Llama2Prompt | code/chat_completion_wrapper/hf_chat_completion_wrapper.py:171-203 | `_format_messages` of the Llama-2 adapter: an empty session raises IndexError, and a rendered prompt always comes from a session whose last message is the user's; Llama2Accepts states exactly which sessions it accepts |
| HFPrompts.ZipBlocksAreTurns | code/chat_completion_wrapper/hf_chat_completion_wrapper.py:192-200 | joining the zipped even and odd slices renders consecutive pairs of messages as closed turns |
| HFPrompts.MergeSystemAlternates | code/chat_completion_wrapper/hf_chat_completion_wrapper.py:180-191 | after merging, the roles alternate from position 0 exactly when they alternated from position 1 before |
| HFPrompts.Llama2Accepts | code/chat_completion_wrapper/hf_chat_completion_wrapper.py:171-203 | the Llama-2 template accepts exactly the non-empty sessions that are well formed once the default system message is added |
| HFPrompts.Llama2RenderShape | code/chat_completion_wrapper/hf_chat_completion_wrapper.py:192-202 | a rendered prompt is the closed turns followed by the open last turn, and it starts with the first instruction |
| HFPrompts.Llama2Shape | code/chat_completion_wrapper/hf_chat_completion_wrapper.py:171-203 | a successful Llama-2 prompt is the closed turns and the open last turn; its first instruction carries the system text wrapped in the system tags before the first user message |
| HFPrompts.Llama2SingleTurn | code/chat_completion_wrapper/hf_chat_completion_wrapper.py:180-202 | a system message and one user message render as one open turn, with no closing answer marker |
| HFPrompts.FalconLines | code/chat_completion_wrapper/hf_chat_completion_wrapper.py:232 | one "Role: content" line per message, in order |
| HFPrompts.FormatFalcon | code/chat_completion_wrapper/hf_chat_completion_wrapper.py:219-235 | the caller's list gains the default system message in place, even when a later check fails; the result is the checked rendering of the updated list |
| HFPrompts.FalconPromptOk | code/chat_completion_wrapper/hf_chat_completion_wrapper.py:223-230 | the Falcon checks pass exactly for a system message followed by a user-first alternation that ends with the user |
| HFPrompts.FalconPrompt | code/chat_completion_wrapper/hf_chat_completion_wrapper.py:223-235 | the checks and rendering of the Falcon template: an empty list raises IndexError; a rendered prompt comes from at least two messages, the first the system's and the last the user's, and ends with the "Assistant: " cue; FalconAccepts states exactly which sessions it accepts |
| HFPrompts.FalconAccepts | code/chat_completion_wrapper/hf_chat_completion_wrapper.py:219-230 | the Falcon template accepts exactly the well-formed sessions |
| HFPrompts.TemplatesAcceptSameSessions | code/chat_completion_wrapper/hf_chat_completion_wrapper.py:186-191 | the Llama-2 and Falcon templates accept the same sessions |
| HFPrompts.FalconRenderShape | code/chat_completion_wrapper/hf_chat_completion_wrapper.py:232-233 | a rendered Falcon prompt starts with "System: " and the system text, and ends with the assistant cue |
| HFPrompts.FalconShape | code/chat_completion_wrapper/hf_chat_completion_wrapper.py:219-235 | a successful Falcon prompt ends with the assistant cue and starts with the system line, which is the default prompt when the caller gave none |
| HFWrapper.HFDefaults | code/chat_completion_wrapper/hf_chat_completion_wrapper.py:158-217 | the defaults have the four options; Falcon also stops at "User" |
| HFWrapper.AdjustBoundaries | code/chat_completion_wrapper/hf_chat_completion_wrapper.py:63-68 | a missing `top_p` or `temperature` raises KeyError; afterwards `top_p` is neither 0 nor 1 and `temperature` is not 0; other values and every other option are kept |
| HFWrapper.NormalizeHF | code/chat_completion_wrapper/hf_chat_completion_wrapper.py:59-78 | the caller's options over the defaults, with the boundary values moved and a `stop` list appended to `stop_sequences` and removed; every other option is kept |
| HFWrapper.DefaultsNormalised | code/chat_completion_wrapper/hf_chat_completion_wrapper.py:59-78 | with no caller options, `top_p` 0.9999999 and `temperature` 0.001 are sent, with the default budget and stop sequences |
| HFWrapper.ApplyTokenBudget | code/chat_completion_wrapper/hf_chat_completion_wrapper.py:100-109 | a prompt estimated longer than the budget makes the budget what the context has left; the budget sent must be positive; a non-numeric budget raises TypeError; no other option changes |
| HFWrapper.BudgetFitsContext | code/chat_completion_wrapper/hf_chat_completion_wrapper.py:100-109 | with a budget of at most half the context, the estimated prompt plus the budget sent never exceeds the context |
| HFWrapper.ClassifyFailure | code/chat_completion_wrapper/hf_chat_completion_wrapper.py:124-134 | a paused endpoint gives DisabledEndpointError, a starting one gives LoadingModelError (and only those states do), and anything else re-raises the client's exception |
| HFWrapper.UnwrapGeneration | code/chat_completion_wrapper/hf_chat_completion_wrapper.py:136-142 | plain text is used as it is; a generation stopped by a stop sequence loses that sequence from its end, and with no tokens raises IndexError; a failure is classified |
| HFWrapper.UnwrapRemovesStopSequence | code/chat_completion_wrapper/hf_chat_completion_wrapper.py:141-142 | text ending in the stop sequence gives back the text before it |
| HFWrapper.HFCallSpec | code/chat_completion_wrapper/hf_chat_completion_wrapper.py:92-155 | a parameter error leaves only the user message added; otherwise the session is as the template left it, with the reply appended exactly when there is one |
| HFWrapper.HFCallSession | code/chat_completion_wrapper/hf_chat_completion_wrapper.py:92-155 | a call records the user message always and the reply exactly on success; the only other possible change is Falcon's default system message in front |
| HFWrapper.HFCallRejectsMalformed | code/chat_completion_wrapper/hf_chat_completion_wrapper.py:97-125 | a session that is not well formed fails whatever the endpoint would answer |
| HFWrapper.HFCallReplyStripped | code/chat_completion_wrapper/hf_chat_completion_wrapper.py:144 | without a hook, a reply neither starts nor ends with whitespace |
| HFWrapper.HFCallPausedEndpoint | code/chat_completion_wrapper/hf_chat_completion_wrapper.py:124-131 | when the generation request fails and the probe finds the endpoint paused, the call raises DisabledEndpointError |
| HFWrapper.HFChatCompletion.constructor | code/chat_completion_wrapper/hf_chat_completion_wrapper.py:158-169 | the adapter has a 4096-token context, its variant's defaults and an empty session |
| HFWrapper.HFChatCompletion.NewSession | code/chat_completion_wrapper/hf_chat_completion_wrapper.py:41-57 | the session is reset as `new_session` does it |
| HFWrapper.HFChatCompletion.Call | code/chat_completion_wrapper/hf_chat_completion_wrapper.py:92-155 | the reply and the new session are those of the call's specification |
| OpenAIWrapper.CheckApiKey | code/chat_completion_wrapper/openai_chat_completion_wrapper.py:40-44 | the key check passes exactly when listing the models works; a rejected key is reported as AuthenticationError, and other failures propagate |
| OpenAIWrapper.IsRetryable | code/chat_completion_wrapper/openai_chat_completion_wrapper.py:32-38 | exactly the five transport exceptions are retried; a rejected key and every other exception are not |
| OpenAIWrapper.InitCheck | code/chat_completion_wrapper/openai_chat_completion_wrapper.py:12-18 | construction passes exactly when a key is given or in the environment and it is accepted; with neither, the assertion fails |
| OpenAIWrapper.OpenAIDefaults | code/chat_completion_wrapper/openai_chat_completion_wrapper.py:23-30 | the six default options, with the model name given |
| OpenAIWrapper.BackoffFrom | code/chat_completion_wrapper/openai_chat_completion_wrapper.py:79-115 | the attempts made are the retries so far, plus one, plus one per sleep |
| OpenAIWrapper.CompletionsWithBackoff | code/chat_completion_wrapper/openai_chat_completion_wrapper.py:68-115 | the loop returns the result, the number of attempts and the delays slept of the retry specification |
| OpenAIWrapper.BackoffBounded | code/chat_completion_wrapper/openai_chat_completion_wrapper.py:98-102 | at most `max_retries + 1` attempts are made |
| OpenAIWrapper.BackoffExhausted | code/chat_completion_wrapper/openai_chat_completion_wrapper.py:98-102 | constant transient failures give exactly `max_retries + 1` attempts and `max_retries` sleeps, then the "Maximum number of retries" exception |
| OpenAIWrapper.BackoffSucceedsAt | code/chat_completion_wrapper/openai_chat_completion_wrapper.py:83-89 | the first completion within the budget is returned after exactly that many attempts and sleeps |
| OpenAIWrapper.BackoffNotRetryable | code/chat_completion_wrapper/openai_chat_completion_wrapper.py:114-115 | a non-retryable failure ends the loop at once with that exception and no sleep |
| OpenAIWrapper.BackoffDelayAt | code/chat_completion_wrapper/openai_chat_completion_wrapper.py:104-105 | each delay is the previous one times the base and the jitter factor of its draw |
| OpenAIWrapper.BackoffDelaysWithoutJitter | code/chat_completion_wrapper/openai_chat_completion_wrapper.py:105 | without jitter, the delays are the initial delay times successive powers of the base |
| OpenAIWrapper.BackoffDelaysPositive | code/chat_completion_wrapper/openai_chat_completion_wrapper.py:104-111 | with draws in [0, 1), every delay slept is positive |
| OpenAIWrapper.BackoffDelaysGrow | code/chat_completion_wrapper/openai_chat_completion_wrapper.py:105 | the delays never shrink, and each is less than twice the base times the previous one |
| OpenAIWrapper.OpenAIRequest | code/chat_completion_wrapper/openai_chat_completion_wrapper.py:85-89 | the request carries the session's records and the options with a 60-second timeout; an option named `messages` or `request_timeout` raises TypeError |
| OpenAIWrapper.FirstChoice | code/chat_completion_wrapper/openai_chat_completion_wrapper.py:124 | the first choice is used, and no choice raises IndexError |
| OpenAIWrapper.OpenAICallSpec | code/chat_completion_wrapper/openai_chat_completion_wrapper.py:117-139 | the session gains the user message always and the reply exactly when there is one; OpenAICallReply states the reply |
| OpenAIWrapper.OpenAICallReply | code/chat_completion_wrapper/openai_chat_completion_wrapper.py:117-139 | when the attempts before attempt k fail transiently within the retry budget and attempt k completes, the reply is that completion's first choice stripped and post-processed (IndexError without choices), it is appended as the assistant's message, and the call slept k times |
| OpenAIWrapper.DefaultRetriesMessage | code/chat_completion_wrapper/openai_chat_completion_wrapper.py:102 | with the default settings, giving up raises "Maximum number of retries (10) exceeded." |
| OpenAIWrapper.OpenAICallGivesUp | code/chat_completion_wrapper/openai_chat_completion_wrapper.py:117-139 | a service that always fails transiently makes the call give up after ten sleeps, keeping the user message |
| OpenAIWrapper.OpenAIRequestCarriesSession | code/chat_completion_wrapper/openai_chat_completion_wrapper.py:118-123 | the service receives the whole session ending with the user message, and every caller option |
| OpenAIWrapper.OpenAIChatCompletion.constructor | code/chat_completion_wrapper/openai_chat_completion_wrapper.py:20-30 | the adapter has the model's defaults and an empty session |
| OpenAIWrapper.OpenAIChatCompletion.Create | code/chat_completion_wrapper/openai_chat_completion_wrapper.py:11-38 | an adapter is created exactly when the key checks pass; otherwise the checks' error is raised |
| OpenAIWrapper.OpenAIChatCompletion.NewSession | code/chat_completion_wrapper/openai_chat_completion_wrapper.py:46-62 | the session is reset as `new_session` does it |
| OpenAIWrapper.OpenAIChatCompletion.Call | code/chat_completion_wrapper/openai_chat_completion_wrapper.py:117-139 | the reply, the new session and the delays slept are those of the call's specification |
| MariTalkWrapper.MariTalkDefaults | code/chat_completion_wrapper/maritalk_chat_completion_wrapper.py:16-22 | the five default options, with sampling on and no stopping tokens |
| MariTalkWrapper.NormalizeMariTalk | code/chat_completion_wrapper/maritalk_chat_completion_wrapper.py:42-50 | the caller's options over the defaults, with `stop` removed; every other caller option and every other default is kept |
| MariTalkWrapper.StopAppendedToStoppingTokens | code/chat_completion_wrapper/maritalk_chat_completion_wrapper.py:45-48 | a `stop` list ends up after the stopping tokens in force, and a non-list stopping-tokens option fails |
| MariTalkWrapper.Generate | code/chat_completion_wrapper/maritalk_chat_completion_wrapper.py:52-59 | the service gets the session's records and the options, and its text or its exception is passed on |
| MariTalkWrapper.MariTalkCallSpec | code/chat_completion_wrapper/maritalk_chat_completion_wrapper.py:61-82 | the session gains the user message always and the reply exactly when there is one |
| MariTalkWrapper.MariTalkCallReply | code/chat_completion_wrapper/maritalk_chat_completion_wrapper.py:61-68 | without a hook, the reply is the service's text stripped, and the service saw the session ending with the user message |
| MariTalkWrapper.MariTalkReplyStripped | code/chat_completion_wrapper/maritalk_chat_completion_wrapper.py:68 | without a hook, a reply neither starts nor ends with whitespace |
| MariTalkWrapper.MariTalkChatCompletion.constructor | code/chat_completion_wrapper/maritalk_chat_completion_wrapper.py:9-22 | the adapter has the defaults and an empty session |
| MariTalkWrapper.MariTalkChatCompletion.NewSession | code/chat_completion_wrapper/maritalk_chat_completion_wrapper.py:24-40 | the session is reset as `new_session` does it |
| MariTalkWrapper.MariTalkChatCompletion.Call | code/chat_completion_wrapper/maritalk_chat_completion_wrapper.py:61-82 | the reply and the new session are those of the call's specification |
| Logger.HtmlEscape | code/logger.py:64 | escaping never shortens the text |
| Logger.EscapedHasNoMarkup | code/logger.py:82 | escaped text holds no `<`, `>`, `"` or `'` |
| Logger.EscapeRoundTrip | code/logger.py:82 | unescaping the escaped text gives back the text |
| Logger.ParseChatLine | code/logger.py:84 | a role's head followed by a body parses as that role with the body unescaped |
| Logger.ChatHtmlRoundTrip | code/logger.py:80-84 | a chat message's HTML line parses back to the message |
| Logger.ToHtml | code/logger.py:62-84 | a chat message's HTML line parses back to the message it came from |
| Logger.Stringify | code/logger.py:45-55 | strings are kept, booleans become "True"/"False", and lists and dicts are written as JSON |
| Logger.StringifyIntRoundTrip | code/logger.py:51-54 | an integer's text reads back as that integer |
| Logger.RoleTagIsUpper | code/logger.py:78 | the tag shown is the upper-cased role name |
| Logger.StripTwoColored | code/logger.py:78 | two coloured stretches separated by "> " show as their two texts |
| Logger.ChatConsoleText | code/logger.py:76-78 | with its colours removed, a chat line reads "ROLE> content" |
| Logger.ToConsole | code/logger.py:57-78 | every console line opens with a colour code and ends with the reset code; ChatConsoleText and OtherConsoleText state the text it shows |
| Logger.OtherConsoleText | code/logger.py:57-60 | with its colours removed, another record's console line is its text |
| Logger.MakeRecord | code/logger.py:98-102 | a chat message makes a chat record and anything else a plain record, with the time and the observation |
| Logger.LoggerRegistry.constructor | code/logger.py:88 | the instance counter starts at zero |
| Logger.Logger.constructor | code/logger.py:90-96 | a logger starts with an empty buffer |
| Logger.Logger.Create | code/logger.py:90-96 | the counter goes up on every attempt, and only the first attempt makes a logger; every later one fails the assertion |
| Logger.Logger.Log | code/logger.py:98-107 | exactly one record is appended, and the console line is produced only when printing is on |
| Logger.Logger.Save | code/logger.py:109-116 | the output renders the buffered records, and the buffer is emptied |
| Logger.SecondLoggerFails | code/logger.py:119-120 | the module's logger is the only one: a second creation fails |
| Evaluator.RowName | code/evaluator.py:12-17 | every row has a non-empty name |
| Evaluator.RowNameInjective | code/evaluator.py:151-152 | different rows are keyed under different names |
| Evaluator.AreaMapInjective | code/evaluator.py:12-17 | different area keys map to different areas, none of them "Total" |
| Evaluator.EnvName | code/evaluator.py:38 | the variable name starts with "huggingface_" and ends with the suffix |
| Evaluator.EnvNameSpec | code/evaluator.py:38 | the model part of the variable name has no dashes, and a name without dashes is used as it is |
| Evaluator.HFConfig | code/evaluator.py:37-51 | the endpoint adapter is configured exactly when the four variables are set, from those variables; otherwise KeyError |
| Evaluator.GetLlmDispatch | code/evaluator.py:32-55 | a "gpt-3.5-turbo" or "gpt-4" name fails the key assertion without the key in the environment; with it, it chooses the commercial adapter exactly when the adapter's key check passes, and otherwise raises AuthenticationError for a rejected key or the listing's own exception; "LLaMA-2" and "Falcon" names choose their endpoint adapter; exactly the other names raise ValueError |
| Evaluator.GetLlm | code/evaluator.py:32-55 | the commercial adapter is chosen only when the key is in the environment and the key check passed, for the model named; an endpoint adapter gets the URL, token, namespace and name read from the environment; GetLlmDispatch states which names choose which adapter |
| Evaluator.Place | code/evaluator.py:63-67 | an unknown area raises KeyError; a record is placed exactly when its slot is free, and otherwise fails the assertion |
| Evaluator.FormatEnemDataset | code/evaluator.py:58-69 | the loop returns the grouping specification's result |
| Evaluator.GroupByArea | code/evaluator.py:58-69 | an empty dataset gives an empty grouping; any failure is the slot assertion or the KeyError of some record's area; GroupByAreaSpec states when it succeeds and what it holds |
| Evaluator.PlaceRecords | code/evaluator.py:67 | placing adds exactly that record, and keeps every record under its own area and id |
| Evaluator.GroupFromOk | code/evaluator.py:62-67 | the loop succeeds exactly when every area is known and every slot is free and distinct |
| Evaluator.GroupFromContents | code/evaluator.py:62-67 | a successful loop adds exactly the input records, each under its own area and id |
| Evaluator.GroupByAreaSpec | code/evaluator.py:58-69 | grouping succeeds exactly when every area is known and no area has an id twice; it then holds exactly the input records, each at its area and id |
| Evaluator.DuplicateIdRejected | code/evaluator.py:66 | the same id in two areas is accepted, but twice in one area is not |
| Evaluator.ZeroCounted | code/evaluator.py:151-152 | before the loop every row counts zero items |
| Evaluator.CountResults | code/evaluator.py:160-165 | the loop succeeds exactly when every area is known, and otherwise raises KeyError for the first item whose area is unknown; each row then counts its items and their correct ones |
| Evaluator.CountStep | code/evaluator.py:161-165 | one item adds to its area's row and to the Total row, and to the correct counts when pred equals gold |
| Evaluator.TotalCountsAll | code/evaluator.py:163-165 | the Total row counts every item |
| Evaluator.CorrectAtMostCount | code/evaluator.py:161-164 | no row has more correct items than items |
| Evaluator.AreasAddUpToTotal | code/evaluator.py:160-165 | the four area rows add up to the Total row, for both counters |
| AnswerExtraction.TryPrefix | code/evaluator.py:77 | a prefix matches exactly when the text at the position is the prefix followed by a capturable letter |
| AnswerExtraction.FirstAlternativeSpec | code/evaluator.py:77 | the match found is that of some alternative, and there is one exactly when an alternative matches |
| AnswerExtraction.MatchAt | code/evaluator.py:77 | a match captures a letter at or after the position |
| AnswerExtraction.MatchSkipsNothing | code/evaluator.py:77 | no capturable letter is passed over, by a match or by a failure |
| AnswerExtraction.ScanStep | code/evaluator.py:77-78 | the scanner and the reference reading take the same step at each position |
| AnswerExtraction.FindAllIsCaptures | code/evaluator.py:77-78 | `findall` captures exactly the letters A-E (dotted ones, for the first expression), in order |
| AnswerExtraction.FindAll | code/evaluator.py:77-78 | `re.findall` yields only letters A-E, at most one per character of the answer; FindAllIsCaptures states exactly which |
| AnswerExtraction.CapturesEmpty | code/evaluator.py:79-83 | nothing is captured exactly when no position captures |
| AnswerExtraction.CapturesLast | code/evaluator.py:80-82 | the last capture is the last capturing position |
| AnswerExtraction.FormattedAnswer | code/evaluator.py:72-87 | the gold label is looked up with Python indexing, and indices out of range raise IndexError |
| AnswerExtraction.PredictionLastDotted | code/evaluator.py:79-80 | the prediction is the last letter A-E directly followed by a dot |
| AnswerExtraction.PredictionLastBare | code/evaluator.py:81-82 | without a dotted letter, the prediction is the last letter A-E with a dot |
| AnswerExtraction.PredictionUnchanged | code/evaluator.py:83-85 | without any letter A-E, the answer is kept as it is |
| AnswerExtraction.PrefixedChoice | code/evaluator.py:77 | "Letra B." reads as "B." |
| WriteOut.CeilDiv | dataset/enem/write_out.py:30 | the result is the least integer c with q <= 45c |
| WriteOut.AreaOfNumber | dataset/enem/write_out.py:30 | an area is found exactly for numbers in (-180, 180], with Python indexing, and beyond that IndexError |
| WriteOut.AreaBlocks | dataset/enem/write_out.py:30 | questions 1-45, 46-90, 91-135 and 136-180 are languages, human sciences, natural sciences and mathematics |
| WriteOut.ZeroIsMathematics | dataset/enem/write_out.py:30 | question 0 lands on index -1, mathematics |
| WriteOut.BeyondLastQuestion | dataset/enem/write_out.py:30 | numbers past 180 raise IndexError |
| WriteOut.QuestionNumber | dataset/enem/write_out.py:29 | the only error is ValueError |
| WriteOut.QuestionNumberAfterLastUnderscore | dataset/enem/write_out.py:29 | an id ending in "_" and a number gives that number |
| WriteOut.GetArea | dataset/enem/write_out.py:28-31 | a missing id raises KeyError and a non-string id raises AttributeError; otherwise the area is that of the id's number, and is always one of the four |
| WriteOut.AnnotateSpec | dataset/enem/write_out.py:70-80 | a document is annotated exactly when it has neither field and its area is known; an existing area fails the assertion; the annotated document keeps its fields and gains the area and the prompt built from the document with its area |
| WriteOut.Annotate | dataset/enem/write_out.py:71-79 | a document that already has an area fails the assertion; an annotated document has exactly its own keys plus the area and the prompt, and its area is the one `get_area` finds; AnnotateSpec states the rest |
| WriteOut.AnnotateDocs | dataset/enem/write_out.py:69-80 | all documents are annotated in order, or the first failure stops the loop with that document's error |
| WriteOut.NumberedDocArea | dataset/enem/write_out.py:70-72 | a document numbered 1-180 is given its block's area |
| Leakage.CheckCutMeaning | dataset/enem/main.py:13-21 | the assertions hold exactly when the prompt is cut cleanly at the only occurrence of the separator, with the query after the cut and not before it |
| Leakage.CheckRecordMeaning | dataset/enem/main.py:12-21 | a record passes exactly when its prompt is cut cleanly at question 3 (when there is a question 4) or at question 2 |
| Leakage.CheckRecord | dataset/enem/main.py:12-21 | a record fails only by an assertion, and a record that passes has the chosen marker in its prompt; CheckRecordMeaning states exactly when it passes |
| Leakage.FirstFailure | dataset/enem/main.py:10-21 | no failure is reported exactly when every record passes; otherwise the first failing record is reported |
| PyStr.StripSpec | code/chat_completion_wrapper/hf_chat_completion_wrapper.py:144 | `strip` keeps a contiguous piece of the text, drops only whitespace, and leaves no surrounding whitespace |
| PyStr.StripIdempotent | code/chat_completion_wrapper/hf_chat_completion_wrapper.py:194 | stripping twice is stripping once |
| PyStr.RemoveSuffixOfAppended | code/chat_completion_wrapper/hf_chat_completion_wrapper.py:142 | removing a suffix that was appended gives back the text |
| PyStr.Upper | code/logger.py:78 | every character is upper-cased in place |
| PyStr.Capitalize | code/chat_completion_wrapper/hf_chat_completion_wrapper.py:232 | the first character is upper-cased and the rest lower-cased |
| PyStr.ContainsIff | dataset/enem/main.py:12 | `in` holds exactly when the substring occurs somewhere |
| PyStr.IndexOfSpec | dataset/enem/main.py:13 | the index found is the first occurrence, and none is found only when there is none |
| PyStr.SplitJoin | dataset/enem/main.py:13 | joining the pieces with the separator gives back the text |
| PyStr.SplitPiecesFree | dataset/enem/main.py:13 | no piece contains the separator |
| PyStr.SplitInTwo | dataset/enem/main.py:16 | two pieces mean the text is the first piece, the separator and the second piece |
| PyStr.SplitLast | dataset/enem/write_out.py:29 | the last piece is what follows the last separator |
| PyStr.RemoveCharKeepsOthers | code/evaluator.py:38 | removing a character that does not occur changes nothing |
| PyStr.ParseInt | dataset/enem/write_out.py:29 | `int()` accepts exactly an optional sign followed by decimal digits |
| PyStr.IntRoundTrip | dataset/enem/write_out.py:29 | an integer's text reads back as that integer |

## Left out

- Logging inside the adapters is not modelled. The `logger(...)` and `logger.save()` calls are left out because they only record what the model already returns.
- The endpoint, the two services and the endpoint-status probe are parameters. They stand in for HTTP, the `requests`, `openai` and `maritalk` clients, and the endpoint URL and token.
- The service key is not modelled. This covers the `openai.api_key` global, the MariTalk key and the `log` flag.
- `random.random()` is a sequence of draws, and `time.sleep` is returned as the list of delays.
- The clock, `uuid4`, file reading and writing, and the Jinja template are left out or given as parameters. The log file path that `save` returns is not modelled.
- Logger.Logger.Save: returns the rendered text that the source writes to the log file, instead of the file's path.
- `json.dumps` is a parameter of the logger. Its output format is not modelled.
- Logger.Stringify: an integer is written as `str` writes it; other non-string values (floats, objects) are not modelled, and neither are the two warning lines it prints for any value that is neither a string nor a bool.
- The HTML colour map is not modelled, because the HTML rendering does not use it.
- The Streamlit app and the `evaluate` and `get_dataset` drivers are left out. They are file I/O and a loop of calls already modelled one by one.
- `build_results_table` is left out except for its counting loop. The HTML table and the percentages are left out. A division by a zero count for an empty area is not modelled.
- The KeyError for a report item without `pred`, `gold` or `area` is not modelled. Every item carries those fields.
- AnswerExtraction.FormattedAnswer: the two diagnostic prints on the no-match branch are left out; the values returned are modelled.
- Calling an adapter before `new_session` raises AttributeError in the source. In the model an adapter starts with an empty session.
- A post-processing hook is any function from text to text or to an error. A hook that returns a non-string is not modelled.
- Option values are reals. Python floats, their rounding, and the `0.9999999` and `2e-4` constants are exact reals here.
- `np.ceil` on a float is exact integer ceiling division here. It agrees with the float result for every question number in range.
- Dicts are maps, so key order is not modelled. Nothing in the modelled code depends on it.
- In `write_out.py`, the documents are updated in place in the source. Here they are annotated as values, so aliasing between a document and the task's own copy is not captured.
- The random generator that the few-shot builder draws from is stood in for by the document's position in the loop.
- The task, description and set selection in `write_out.py` are left out. This covers `lm_eval` and argument parsing.
- The leakage script asserts; here the first failing record is returned as an index instead of raising.
- HFWrapper.HFChatCompletion.Call: the message is typed as text, so the TypeError that building the user message raises for a non-string message, before anything is appended, is not modelled.
- OpenAIWrapper.OpenAIChatCompletion.Call: the message is typed as text, so the TypeError for a non-string message, raised before anything is appended, is not modelled.
- MariTalkWrapper.MariTalkChatCompletion.Call: the message is typed as text, so the TypeError for a non-string message, raised before anything is appended, is not modelled.
- BaseWrapper.StartSession: the system prompt is typed as text, so the TypeError for a non-string system prompt, raised after the session was reset to a fresh empty list, is not modelled.
- OpenAIWrapper.OpenAICallSpec: a choice is text, so a first choice whose content is None, where `.strip()` raises AttributeError, is not modelled.
- PyStr.ParseInt: surrounding whitespace, digit-group underscores and non-ASCII digits, which Python's `int()` also accepts, are not modelled.
- PyStr.Upper: only ASCII letters change case, which covers the role names it is used on.
- PyStr.Lower: only ASCII letters change case, which covers the role names it is used on.
- PyStr.Capitalize: only ASCII letters change case, which covers the role names it is used on.
- The streaming client setup and the `_check_endpoint_status` request itself are left out. Only the status and state they return are modelled.
