# Code Snippet Explainer: request pipeline model

A Dafny model of the backend request pipeline of the Code-Snipper-Explainer
service, together with the error mapping in its web client. The pipeline works
like this:

- A command is routed by its exact class to a registered handler.
- The handler validates the submitted code and builds an immutable snippet
  with a normalised language hint.
- The handler calls an AI provider and maps the provider's value object to a
  transfer object.
- Every failure ends in a small closed error taxonomy. Each error kind is
  then mapped to an HTTP response, and the web client maps that response back
  to a user message.

The model covers these parts:

- the OpenAI provider, which builds the request and classifies its outcome;
- the three prompt builders;
- the request model and the settings validators.

Layout, one module per source unit:

| file | modules | source |
|---|---|---|
| `wrappers.dfy`, `text.dfy` | `Wrappers`, `Text` | Python's `Optional` truthiness and the `str` operations used by the code (`strip`, `isspace`, `lower`, `count`, `split`, `str(int)`), over ASCII |
| `errors.dfy` | `Errors` | `backend/app/domain/exceptions.py` and the raise/return discipline (`Result`) |
| `value_objects.dfy` | `ValueObjects` | the four frozen dataclasses |
| `code_validation.dfy` | `CodeValidation` | `CodeValidationService` |
| `application_types.dfy` | `Commands`, `Dtos`, `AIProviders` | command records, DTOs, the provider interface |
| `handlers.dfy` | `Handlers` | the three capability handlers |
| `dispatch.dfy` | `Dispatch` | `CommandDispatcher` (a class whose methods update its `_handlers` dict) and `LoggingMiddleware` |
| `prompts.dfy` | `ExplainPrompts`, `RefactorPrompts`, `TestGenerationPrompts` | the prompt builders |
| `openai_provider.dfy` | `OpenAI` | `OpenAIProvider` |
| `exception_handlers.dfy` | `ExceptionHandlers` | the FastAPI exception handlers |
| `api_models.dfy` | `ApiModels` | `ExplainCodeRequest` |
| `settings.dfy` | `Config` | `Settings` |
| `api_service.dfy` | `ApiService` | the frontend `HttpClient` |

The model encodes Python behaviour as follows:

- A raised exception is the `Err` case of `Errors.Result`. Its `message` is
  what `str(exc)` gives.
- `ValueError`, `AttributeError` and every other exception outside the
  domain hierarchy are `Errors.Other`.
- `async` calls are plain calls.

## Where the code departs from its documented behaviour

In each of these cases the model follows the code.

- **Too-long code.** It is rejected with a plain `ValidationError` whose
  message names the limit. It carries no `(actual_size, max_size)` pair.
  `CodeTooLargeError` exists and the 422 handler reports its sizes, but no
  code path raises it.
- **The maximum length.** It is the constant 50000 of
  `CodeValidationService`. `Settings.max_code_length` is not consulted.
- **Provider settings.** `Settings.ai_timeout` is read nowhere, so the OpenAI
  provider always keeps its default timeout of 30 seconds.
  `Settings.openai_model` is passed only by the application wiring
  (`backend/app/application/dependencies.py`); the presentation wiring
  passes the key alone, so that provider uses `gpt-4o-mini`.
- **Hint normalisation.** Only the language hint is normalised, by stripping
  and lower-casing. `goal` and `test_framework` reach the provider exactly as
  given.
- **Errors the handlers pass through.** The handlers re-raise only
  `ValidationError` and `AIProviderError`. A `DomainError` that is not a
  `ValidationError` is wrapped like any other exception.
- **Registered commands.** `get_registered_commands` returns a list in
  first-registration order, not a set.
- **The OpenAI provider.** It defines only `explain_code`. Called through a
  handler, `refactor_code` or `generate_tests` raises `AttributeError`, which
  the handler wraps.
- **The empty-response error.** It is raised inside the `try` of
  `explain_code`, so the catch-all clause catches it. The caller sees
  "Failed to get explanation from OpenAI: Empty response from OpenAI".
- **Missing pieces.** None of the modelled files has a response parser,
  retry logic or a connection pool.

## Model

| member | source | states |
|---|---|---|
| Errors.Hierarchy | backend/app/domain/exceptions.py:4-40 | ValidationError is a DomainError; CodeTooLargeError is a ValidationError; the timeout and quota errors are AIProviderErrors; no error is both a domain and a provider error; other exceptions are neither |
| Errors.TooLargeMessageDeterminesSizes | backend/app/domain/exceptions.py:34-40 | the message "Code size {actual} exceeds maximum {max}" determines both sizes |
| ValueObjects.NewCodeSnippet | backend/app/domain/value_objects/code_snippet.py:5-14 | construction succeeds iff the content has a non-whitespace character; the content and the language are stored as given; otherwise the error is "Code content cannot be empty" |
| ValueObjects.SnippetCounts | backend/app/domain/value_objects/code_snippet.py:16-24 | a valid snippet has line_count = number of pieces of `split("\n")` (at least 1) and character_count = len(content) |
| ValueObjects.NewCodeExplanation | backend/app/domain/value_objects/code_explanation.py:6-17 | succeeds iff the explanation is not blank; then it stores the snippet, the explanation, the provider and the flag as given; otherwise "Explanation cannot be empty" |
| ValueObjects.NewCodeRefactor | backend/app/domain/value_objects/code_refactor.py:9-28 | succeeds iff the code and explanation are not blank and there is an improvement; when several checks fail, the first in the order code, explanation, improvements sets the message |
| ValueObjects.RefactorCounts | backend/app/domain/value_objects/code_refactor.py:30-38 | the counts describe the refactored code: at least one line, one per `split("\n")` piece, and its length |
| ValueObjects.NewTestScaffold | backend/app/domain/value_objects/test_scaffold.py:9-29 | succeeds iff the test code and framework are not blank and there is a test case; the checks run in that order; setup instructions may be absent |
| ValueObjects.ScaffoldCounts | backend/app/domain/value_objects/test_scaffold.py:31-39 | the counts describe the test code |
| CodeValidation.ValidateCodeContent | backend/app/domain/services/code_validation_service.py:11-30 | accepts exactly the strings with a visible character and at most 50000 characters; a non-string, then blank code, then too-long code each give their own plain ValidationError |
| CodeValidation.EmptinessBeforeLength | backend/app/domain/services/code_validation_service.py:24-30 | blank code of any length gets the empty-code error; exactly 50000 characters is accepted |
| CodeValidation.NormalizeLanguage | backend/app/domain/services/code_validation_service.py:40-45 | the result is set iff the hint has a visible character; it is then the stripped, lower-cased hint: non-empty, unpadded, lower case |
| CodeValidation.NormalizeLanguageIdempotent | backend/app/domain/services/code_validation_service.py:40-45 | normalising a normalised hint changes nothing |
| CodeValidation.CreateCodeSnippet | backend/app/domain/services/code_validation_service.py:35-47 | fails exactly when validation fails, with its error; otherwise the snippet holds the code untrimmed and the normalised language, and is valid |
| Handlers.Reraise | backend/app/application/handlers/explain_code_handler.py:65-72 | validation and provider errors pass through unchanged; anything else becomes an AIProviderError "<context><str(e)>"; the result is always a validation or provider error |
| Handlers.ExplainCodeHandler.Handle | backend/app/application/handlers/explain_code_handler.py:24-72 | invalid code yields its validation error; otherwise the provider gets the untouched code with the normalised language; on success the DTO copies the explanation, provider and flag and takes its counts from the input code (at least one line); errors stay in the closed taxonomy |
| Handlers.RefactorCodeHandler.Handle | backend/app/application/handlers/refactor_code_handler.py:44-74 | as above; the goal reaches the provider unchanged; the DTO copies the refactor's fields and counts the refactored code |
| Handlers.GenerateTestsHandler.Handle | backend/app/application/handlers/generate_tests_handler.py:44-77 | as above; the framework reaches the provider unchanged; the DTO copies the scaffold's fields and counts the test code |
| Handlers.ValidationPrecedesProvider | backend/app/application/handlers/explain_code_handler.py:44-49 | for invalid code, each handler's outcome is the same whatever provider it holds, so no provider operation decides it |
| Handlers.SuccessfulResultsHaveLines | backend/app/application/handlers/refactor_code_handler.py:52-60 | with a provider that returns valid value objects, successful refactor and test results report at least one line and a non-empty list |
| Dispatch.Registered | backend/app/application/dispatch.py:117-120 | `_handlers[t] = h` binds t to h; other bindings are unchanged; a new key joins the end of the key order and an old key keeps its place; the registry stays well formed |
| Dispatch.OrderCoversKeys | backend/app/application/dispatch.py:166-168 | a well-formed key order lists as many types as the dict has keys |
| Dispatch.LastRegistrationWins | backend/app/application/dispatch.py:117-120 | registering the same type twice equals registering only the second handler |
| Dispatch.ExactTypeLookup | backend/app/application/dispatch.py:143-148 | an instance of an unregistered subclass of a registered type is refused with "No handler registered for command type: <name>" |
| Dispatch.RouteUsesOnlyItsHandler | backend/app/application/dispatch.py:150-160 | the outcome depends only on the binding for the command's own type |
| Dispatch.RegisteredHandlerIsUsed | backend/app/application/dispatch.py:150-155 | after registering h for t, a t command returns exactly what h returns or raises |
| Dispatch.CommandDispatcher.constructor | backend/app/application/dispatch.py:104-105 | a new dispatcher has no registered types |
| Dispatch.CommandDispatcher.RegisterHandler | backend/app/application/dispatch.py:107-121 | the new state is `Registered` of the old state |
| Dispatch.CommandDispatcher.Register | backend/app/application/dispatch.py:123-128 | the alias has exactly the same effect as RegisterHandler |
| Dispatch.CommandDispatcher.Dispatch | backend/app/application/dispatch.py:130-160 | an unregistered exact type gives the ValueError; a registered one gives exactly its handler's result or error; the registry is not modified |
| Dispatch.CommandDispatcher.IsRegistered | backend/app/application/dispatch.py:162-164 | true iff the type is bound |
| Dispatch.CommandDispatcher.GetRegisteredCommands | backend/app/application/dispatch.py:166-168 | every registered type once, nothing else, in first-registration order |
| Dispatch.LoggingMiddleware | backend/app/application/dispatch.py:37-55 | returns or re-raises exactly what the next handler does |
| ExplainPrompts.FenceTag | backend/app/infrastructure/ai/prompts/explain_prompts.py:32 | the fence tag is the language, or "text" without one |
| ExplainPrompts.GetUserPrompt | backend/app/infrastructure/ai/prompts/explain_prompts.py:24-36 | the prompt opens with the fixed request, then the language hint and a colon ending the line; after a blank line comes the content verbatim between a "```<tag>" line and a "```" line, and that block, a line break and the fixed closing end the prompt |
| ExplainPrompts.LanguageHintIff | backend/app/infrastructure/ai/prompts/explain_prompts.py:26-30 | the " (Language: " hint follows the opening iff a language is set, and it is then " (Language: <language>)" |
| RefactorPrompts.GetUserPrompt | backend/app/infrastructure/ai/prompts/refactor_prompts.py:28-63 | the prompt opens with the fixed intro, holds the code verbatim in a "```code" fence right after it, and ends with the fixed "Please provide" block; an empty line follows the fence |
| RefactorPrompts.GoalLineIff | backend/app/infrastructure/ai/prompts/refactor_prompts.py:48-52 | the text after the fence and its empty line starts "\nSpecific refactoring goal: " iff the goal is truthy, and then it is that line with the goal itself followed by an empty line |
| TestGenerationPrompts.GetUserPrompt | backend/app/infrastructure/ai/prompts/test_generation_prompts.py:28-66 | the first sentence has the language hint, then the fixed middle, then the framework hint; the code sits verbatim in a "```code" fence immediately before the fixed closing request, which ends the prompt |
| TestGenerationPrompts.LanguageHintIff | backend/app/infrastructure/ai/prompts/test_generation_prompts.py:43-46 | the text after the intro starts " (" iff the language is truthy, and then it is " (<language>)" |
| TestGenerationPrompts.FrameworkHintIff | backend/app/infrastructure/ai/prompts/test_generation_prompts.py:44-46 | the text after the fixed middle starts " using " iff the framework is truthy, and then it is " using <framework>" |
| OpenAI.NewOpenAIProvider | backend/app/infrastructure/ai/openai_provider.py:20-38 | construction succeeds iff the key is present and non-empty; otherwise ValueError "OpenAI API key is required"; the base URL is the public endpoint |
| OpenAI.BearerRoundTrip | backend/app/infrastructure/ai/openai_provider.py:117-120 | the Authorization value reads back as exactly the API key under the bearer scheme of section 2.1 of RFC 6750 |
| OpenAI.MakeCompletionRequest | backend/app/infrastructure/ai/openai_provider.py:113-135 | POST to "<base>/chat/completions" with the bearer key, a JSON content type, the configured model, the messages [system, user] in that order, temperature 0.3, max_tokens 2000 and no streaming |
| OpenAI.ExplainRequest | backend/app/infrastructure/ai/openai_provider.py:65-72 | the request is the completion request built from the explanation system prompt and the explanation user prompt of the snippet, so its first message is the system prompt, its second the user prompt, and the snippet's fenced block is inside the user message |
| OpenAI.StatusCodeError | backend/app/infrastructure/ai/openai_provider.py:96-107 | 429 (section 4 of RFC 6585) and nothing else gives the quota error; any other status of 500 or above gives "OpenAI server error: ..." and any lower one "OpenAI API error: ...", both plain provider errors |
| OpenAI.ClassifyOutcome | backend/app/infrastructure/ai/openai_provider.py:74-111 | a timeout names the configured seconds; a status error is classified as above; missing, empty or blank content and any other exception end in "Failed to get explanation from OpenAI: ..."; success iff the content has a visible character, and then the explanation is the content with provider "openai" and no placeholder flag; every error is a provider error |
| OpenAI.ExplainCode | backend/app/infrastructure/ai/openai_provider.py:45-111 | every failure is an AIProviderError kind, never a validation error; a success is a valid explanation of the same snippet by "openai" |
| OpenAI.AsAIProvider | backend/app/infrastructure/ai/openai_provider.py:17-43 | provider_name is "openai"; explain_code is the classification above; refactor_code and generate_tests raise AttributeError |
| OpenAI.OpenAIIsLawful | backend/app/infrastructure/ai/openai_provider.py:83-88 | every explanation the provider returns is a valid value object |
| OpenAI.ExplainErrorsPassThrough | backend/app/infrastructure/ai/openai_provider.py:90-111 | behind the explain handler, every provider error reaches the caller unchanged, and a success carries the completion text and "openai" |
| OpenAI.RefactorUnsupported | backend/app/application/handlers/refactor_code_handler.py:48-74 | behind the refactor handler, valid code always ends in the wrapped AttributeError |
| OpenAI.GenerateTestsUnsupported | backend/app/application/handlers/generate_tests_handler.py:48-77 | behind the test handler, valid code always ends in the wrapped AttributeError |
| OpenAI.StatusCodeErrorDeterminesCode | backend/app/infrastructure/ai/openai_provider.py:96-107 | the error names its status: equal errors come from equal statuses |
| OpenAI.TimeoutMessageDeterminesTimeout | backend/app/infrastructure/ai/openai_provider.py:90-94 | the timeout message determines the configured timeout |
| ExceptionHandlers.DomainErrorHandler | backend/app/presentation/exception_handlers.py:15-21 | 400, type "domain_error", message str(exc), no details |
| ExceptionHandlers.ValidationErrorHandler | backend/app/presentation/exception_handlers.py:24-38 | 422, type "validation_error", message str(exc); details present iff the error is a CodeTooLargeError, and then they hold its sizes |
| ExceptionHandlers.AIProviderErrorHandler | backend/app/presentation/exception_handlers.py:41-51 | 503 with the fixed "AI service temporarily unavailable" |
| ExceptionHandlers.GeneralExceptionHandler | backend/app/presentation/exception_handlers.py:54-62 | 500, type "internal_error", fixed message |
| ExceptionHandlers.ProviderResponseHidesError | backend/app/presentation/exception_handlers.py:41-51 | all provider errors, whatever their kind and text, give the same response |
| ExceptionHandlers.ClientErrorsCarryMessage | backend/app/presentation/exception_handlers.py:15-38 | the 400 and 422 bodies carry the exception's text; for a too-large error the details agree with the message |
| ExceptionHandlers.StatusClasses | backend/app/presentation/exception_handlers.py:15-62 | domain and validation errors map to the 4xx class, provider and unexpected errors to the 5xx class (sections 15.5 and 15.6 of RFC 9110) |
| ApiModels.CheckCode | backend/app/presentation/api/v1/models.py:8-26 | the code field passes iff its length is within 1..50000 and it is not blank; the bounds are checked before the validator |
| ApiModels.ValidateLanguage | backend/app/presentation/api/v1/models.py:28-34 | absent, empty and whitespace-only hints become absent; anything else is lower-cased without trimming |
| ApiModels.ParseExplainCodeRequest | backend/app/presentation/api/v1/models.py:5-34 | accepted iff the code passes and the language has at most 50 characters; otherwise exactly the failing fields are reported, each once, code first |
| ApiModels.CodeRulesAgree | backend/app/presentation/api/v1/models.py:8-26 | the request model accepts a code string iff the domain service does |
| ApiModels.LanguageRulesCompose | backend/app/presentation/api/v1/models.py:28-34 | the domain normalisation of the request model's language equals the domain normalisation of the raw language |
| Config.DefaultSettings | backend/app/infrastructure/settings.py:9-33 | the defaults select "openai" without a key, timeout 30, maximum code length 50000, model "gpt-4o" |
| Config.ValidateAiProvider | backend/app/infrastructure/settings.py:35-41 | accepts exactly "fake" and "openai"; otherwise ValueError "ai_provider must be one of ['fake', 'openai']" |
| Config.ValidateOpenAIKey | backend/app/infrastructure/settings.py:43-47 | fails iff the provider is "openai" and the key is missing or empty |
| Config.ValidateSettings | backend/app/infrastructure/settings.py:35-47 | valid iff the provider is "fake", or is "openai" with a non-empty key; the provider check comes first |
| Config.DefaultsNeedKey | backend/app/infrastructure/settings.py:16-47 | the defaults fail with the missing-key error; any non-empty key makes them valid |
| Config.FakeNeedsNoKey | backend/app/infrastructure/settings.py:43-47 | "fake" settings validate without a key |
| Config.ValidSettingsBuildProvider | backend/app/presentation/dependencies.py:14-17 | validated "openai" settings always construct the provider: with the key alone (this wiring) it gets the default model and timeout, and with the key and `openai_model` (backend/app/application/dependencies.py:13-19) it gets that model and still the default timeout |
| ApiService.GetErrorMessage | frontend/src/services/api.service.ts:112-134 | the message is never empty; 401 asks to log in, 403 denies permission, 404 says not found, 429 asks to wait, 500 is the server error text and 502-504 share the unavailable text, whatever the body; 400 and other statuses show the body's message, else the 400 text or "Request failed (<status>)" |
| ApiService.FixedStatusIgnoresBody | frontend/src/services/api.service.ts:117-130 | for the fixed statuses the body makes no difference |
| ApiService.RequestFailedNamesStatus | frontend/src/services/api.service.ts:131-132 | the fallback message determines the status |
| ApiService.HandleErrorResponse | frontend/src/services/api.service.ts:95-110 | the error carries the status and the parsed body, or for a non-JSON body {unknown_error, statusText or "Unknown error occurred"}; its message is the status message for that body |
| ApiService.NonJsonBodyShowsStatusText | frontend/src/services/api.service.ts:100-106 | with a non-JSON body and a non-fixed status, the user sees the status text or "Unknown error occurred" |
| ApiService.Classify | frontend/src/services/api.service.ts:78-92 | an abort, and only an abort, becomes "Request timed out" with 408; an `Error` becomes "Network error: <its message>" and any other thrown value "Network error: Unknown error", both with no status |
| ApiService.Request | frontend/src/services/api.service.ts:51-93 | success iff the response is ok and parses; a non-ok response's error is rethrown unchanged; an unparsable ok body is a network error |
| ApiService.FailureStatus | frontend/src/services/api.service.ts:73-92 | every failure has a message; it has a status iff the server answered with an error or the request timed out |
| ApiService.Post | frontend/src/services/api.service.ts:136-141 | POST to base URL + endpoint with a JSON content type; the body is absent iff the data is falsy, else it is the serialised data |
| ApiService.Get | frontend/src/services/api.service.ts:143-147 | GET to base URL + endpoint with the JSON content type and no body |
| ApiService.PostIsGetWithBody | frontend/src/services/api.service.ts:136-147 | a post and a get to the same endpoint build the same request apart from the verb and the body; with a falsy payload the post carries no body at all |

## Left out

- HTTP I/O is not modelled. This covers the httpx client, `raise_for_status` and `response.json()` in the backend, and `fetch`, the `AbortController` timer and `response.json()` in the frontend. Their outcomes are parameters: `OpenAI.HttpOutcome` with a `send` function, and `ApiService.FetchOutcome`.
- Logging and timing are not modelled, including the timing in `LoggingMiddleware`. They do not affect results.
- `async` and concurrency are not modelled. Every await is a plain call.
- `get_system_prompt` of the three prompt classes is the constant `SYSTEM_PROMPT` of its module, and `get_version` returns `PROMPT_VERSION`. Neither has an input to relate its result to.
- Parsing the refactor and test responses is not modelled: no such code exists in the source. `refactor_code` and `generate_tests` stay abstract operations of `AIProviders.AIProvider`.
- `create_dispatcher` is not modelled, because it calls an `add_middleware` method that the class does not define. The dependency wiring, the FastAPI routes and `main.py` are not modelled either.
- Which exception handler FastAPI selects for an exception is not modelled. Their registration is not part of this model, so the four handlers are modelled one by one, each requiring its exception class.
- `ApiService.FetchOutcome` does not model an error body that is JSON but not an object, such as `null`. Reading `message` from it throws inside the client.
- The success body of a request is an opaque value.
- `ApiModels.CheckCode` reports the length-bound violations as issue kinds, not with Pydantic's own message texts. Only the custom validator's message is kept.
- `Text.Strip`, `Text.Lower` and `Text.IsSpace` follow Python over ASCII only, not full Unicode.
- `temperature` is the constant real 0.3.
- Loading the environment and the `.env` file into `Settings` is not modelled.
- `ApiService.explainCode`, `ping` and the singleton instances are not modelled: they only call `post` and `get` with fixed paths.
- `OpenAI.StatusCodeError` accepts any status code. Which statuses `raise_for_status` raises for belongs to httpx.
- `Dispatch.CommandType` identifies a class by its name and a single base. Python keys the handler dict by the class object, so two distinct classes with the same name and base would be two keys there and are one here. Multiple inheritance is not modelled.
