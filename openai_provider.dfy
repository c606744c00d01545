/**
 * `OpenAIProvider`: builds one chat-completions request per explanation and
 * turns what comes back (a body, an HTTP status error, a timeout, or any other
 * exception) into a `CodeExplanation` or a provider error. The HTTP exchange
 * itself is a parameter: `send` maps the request to its outcome.
 */
module OpenAI {
  import opened Wrappers
  import opened Text
  import opened Errors
  import opened ValueObjects
  import opened CodeValidation
  import opened Commands
  import opened AIProviders
  import opened Handlers
  import ExplainPrompts

  const BASE_URL := "https://api.openai.com/v1"
  const DEFAULT_MODEL := "gpt-4o-mini"
  const DEFAULT_TIMEOUT := 30
  const PROVIDER_NAME := "openai"
  const KEY_REQUIRED := "OpenAI API key is required"

  datatype OpenAIProvider = OpenAIProvider(apiKey: string, model: string, timeout: int, baseUrl: string)

  /** `OpenAIProvider(api_key, model, timeout)`: a missing or empty key is a
      `ValueError`; the base URL is always the public endpoint. */
  function NewOpenAIProvider(apiKey: Option<string>, model: string := DEFAULT_MODEL,
                             timeout: int := DEFAULT_TIMEOUT): (r: Result<OpenAIProvider>)
    ensures r.Ok? <==> Truthy(apiKey)
    ensures r.Ok? ==> r.value == OpenAIProvider(apiKey.value, model, timeout, BASE_URL)
    ensures r.Ok? ==> r.value.apiKey != ""
    ensures r.Err? ==> r.error == Other(KEY_REQUIRED)
  {
    if !Truthy(apiKey) then Err(Other(KEY_REQUIRED))
    else Ok(OpenAIProvider(apiKey.value, model, timeout, BASE_URL))
  }

  /** One message of the chat. */
  datatype ChatMessage = ChatMessage(role: string, content: string)

  /** The POST `_make_completion_request` sends. */
  datatype CompletionRequest = CompletionRequest(
    url: string,
    headers: map<string, string>,
    model: string,
    messages: seq<ChatMessage>,
    temperature: real,
    maxTokens: int,
    stream: bool)

  const AUTH_SCHEME := "Bearer "

  /** The value of the `Authorization` header for a key (section 2.1 of
      RFC 6750, the bearer token scheme). */
  function AuthorizationValue(apiKey: string): string {
    AUTH_SCHEME + apiKey
  }

  /** The token a server reads back from a bearer `Authorization` value. */
  function BearerToken(value: string): Option<string> {
    if StartsWith(value, AUTH_SCHEME) then Some(value[|AUTH_SCHEME|..]) else None
  }

  /** The header carries the key and nothing else. */
  lemma BearerRoundTrip(apiKey: string)
    ensures BearerToken(AuthorizationValue(apiKey)) == Some(apiKey)
  {
    Concat(AUTH_SCHEME, apiKey);
  }

  /** `_make_completion_request(system_prompt, user_prompt)`: the request, up
      to the point where it is handed to the HTTP client. */
  function MakeCompletionRequest(p: OpenAIProvider, systemPrompt: string, userPrompt: string): (r: CompletionRequest)
    ensures r.url == p.baseUrl + "/chat/completions"
    ensures "Authorization" in r.headers && BearerToken(r.headers["Authorization"]) == Some(p.apiKey)
    ensures "Content-Type" in r.headers && r.headers["Content-Type"] == "application/json"
    ensures r.messages == [ChatMessage("system", systemPrompt), ChatMessage("user", userPrompt)]
    ensures r.model == p.model && r.temperature == 0.3 && r.maxTokens == 2000 && !r.stream
  {
    BearerRoundTrip(p.apiKey);
    CompletionRequest(
      p.baseUrl + "/chat/completions",
      map["Authorization" := AuthorizationValue(p.apiKey), "Content-Type" := "application/json"],
      p.model,
      [ChatMessage("system", systemPrompt), ChatMessage("user", userPrompt)],
      0.3,
      2000,
      false)
  }

  /** The request for one snippet: the completion request carrying the
      explanation prompts, so the snippet's code block is inside the user
      message. */
  function ExplainRequest(p: OpenAIProvider, snippet: CodeSnippet): (r: CompletionRequest)
    ensures r == MakeCompletionRequest(p, ExplainPrompts.SYSTEM_PROMPT, ExplainPrompts.GetUserPrompt(snippet))
    ensures |r.messages| == 2
    ensures r.messages[0] == ChatMessage("system", ExplainPrompts.SYSTEM_PROMPT)
    ensures r.messages[1] == ChatMessage("user", ExplainPrompts.GetUserPrompt(snippet))
    ensures IsInfix(ExplainPrompts.CodeBlock(snippet), r.messages[1].content)
  {
    var user := ExplainPrompts.GetUserPrompt(snippet);
    var r := MakeCompletionRequest(p, ExplainPrompts.SYSTEM_PROMPT, user);
    var i := |ExplainPrompts.INTRO| + |ExplainPrompts.LanguageHint(snippet.language)| + |ExplainPrompts.HEADER_END|;
    assert 0 <= i <= |user| && OccursAt(ExplainPrompts.CodeBlock(snippet), user, i);
    r
  }

  /** How the HTTP exchange ended. */
  datatype HttpOutcome =
    | TimedOut                            // httpx.TimeoutException
    | StatusError(statusCode: int)        // raise_for_status() raised
    | Completed(content: Option<string>)  // choices[0].message.content; None for JSON null
    | Failed(message: string)             // any other exception, with its str()

  const QUOTA_EXCEEDED := "OpenAI API quota exceeded"
  const SERVER_ERROR := "OpenAI server error: "
  const API_ERROR := "OpenAI API error: "
  const FAILED := "Failed to get explanation from OpenAI: "
  const EMPTY_RESPONSE := "Empty response from OpenAI"

  function TimeoutMessage(timeout: int): string {
    "Request timed out after " + IntToString(timeout) + " seconds"
  }

  /** The error for a status code: 429 is the quota error, 500 and above a
      server error, anything else an API error carrying the code. */
  function StatusCodeError(code: int): (e: Error)
    ensures IsProviderError(e)
    ensures code == 429 <==> e.ProviderQuota?
    ensures code != 429 ==> e.Provider?
    ensures code != 429 && code >= 500 ==> StartsWith(e.message, SERVER_ERROR)
    ensures code < 500 && code != 429 ==> StartsWith(e.message, API_ERROR)
  {
    Concat(SERVER_ERROR, IntToString(code));
    Concat(API_ERROR, IntToString(code));
    if code == 429 then ProviderQuota(QUOTA_EXCEEDED)
    else if code >= 500 then Provider(SERVER_ERROR + IntToString(code))
    else Provider(API_ERROR + IntToString(code))
  }

  /** The `try` body of `explain_code` and its `except` clauses. The empty
      response error is raised inside the `try`, so the last clause wraps it,
      as it wraps a `ValueError` from `CodeExplanation` for whitespace-only
      content. */
  function ClassifyOutcome(snippet: CodeSnippet, timeout: int, outcome: HttpOutcome): (r: Result<CodeExplanation>)
    ensures r.Err? ==> IsProviderError(r.error)
    ensures r.Ok? <==> outcome.Completed? && outcome.content.Some? && HasVisible(outcome.content.value)
    ensures r.Ok? ==> r.value == CodeExplanation(snippet, outcome.content.value, PROVIDER_NAME, false)
    ensures r.Ok? ==> ValidExplanation(r.value)
    ensures outcome.TimedOut? ==> r == Err(ProviderTimeout(TimeoutMessage(timeout)))
    ensures outcome.StatusError? ==> r == Err(StatusCodeError(outcome.statusCode))
    ensures outcome.Failed? ==> r == Err(Provider(FAILED + outcome.message))
    ensures outcome.Completed? && !Truthy(outcome.content) ==> r == Err(Provider(FAILED + EMPTY_RESPONSE))
    ensures outcome.Completed? && Truthy(outcome.content) && !HasVisible(outcome.content.value) ==>
              r == Err(Provider(FAILED + EXPLANATION_EMPTY))
  {
    match outcome
    case TimedOut => Err(ProviderTimeout(TimeoutMessage(timeout)))
    case StatusError(code) => Err(StatusCodeError(code))
    case Failed(message) => Err(Provider(FAILED + message))
    case Completed(content) =>
      if !Truthy(content) then Err(Provider(FAILED + EMPTY_RESPONSE))
      else
        match NewCodeExplanation(snippet, content.value, PROVIDER_NAME, false)
        case Err(e) => Err(Provider(FAILED + Message(e)))
        case Ok(x) => Ok(x)
  }

  /** `explain_code(snippet)`: one request, its outcome classified. */
  function ExplainCode(p: OpenAIProvider, snippet: CodeSnippet, send: CompletionRequest -> HttpOutcome)
    : (r: Result<CodeExplanation>)
    ensures r.Err? ==> IsProviderError(r.error)
    ensures r.Ok? ==> r.value.snippet == snippet && r.value.provider == PROVIDER_NAME && !r.value.isPlaceholder
    ensures r.Ok? ==> ValidExplanation(r.value)
  {
    ClassifyOutcome(snippet, p.timeout, send(ExplainRequest(p, snippet)))
  }

  /** What `getattr` raises for an operation the class does not define. */
  function NoAttribute(name: string): Error {
    Other("'OpenAIProvider' object has no attribute '" + name + "'")
  }

  /** The provider as the handlers see it. The class defines only
      `explain_code`: `refactor_code` and `generate_tests` raise
      `AttributeError`. */
  function AsAIProvider(p: OpenAIProvider, send: CompletionRequest -> HttpOutcome): (r: AIProvider)
    ensures r.providerName == PROVIDER_NAME
    ensures forall s :: r.explainCode(s) == ExplainCode(p, s, send)
    ensures forall s, g :: r.refactorCode(s, g) == Err(NoAttribute("refactor_code"))
    ensures forall s, f :: r.generateTests(s, f) == Err(NoAttribute("generate_tests"))
  {
    AIProvider(
      PROVIDER_NAME,
      s => ExplainCode(p, s, send),
      (s, g) => Err(NoAttribute("refactor_code")),
      (s, f) => Err(NoAttribute("generate_tests")))
  }

  /** Every explanation the provider returns is a valid value object. */
  lemma OpenAIIsLawful(p: OpenAIProvider, send: CompletionRequest -> HttpOutcome)
    ensures Lawful(AsAIProvider(p, send))
  {
    var ai := AsAIProvider(p, send);
    forall s | ai.explainCode(s).Ok?
      ensures ValidExplanation(ai.explainCode(s).value)
    {
      assert ai.explainCode(s) == ExplainCode(p, s, send);
    }
  }

  /** Behind the explain handler, every error of the provider reaches the
      caller unchanged (they are all provider errors), and a success carries
      the completion's text. */
  lemma ExplainErrorsPassThrough(p: OpenAIProvider, send: CompletionRequest -> HttpOutcome,
                                 command: ExplainCodeCommand)
    requires ValidateCodeContent(Str(command.code)).Ok?
    ensures var x := ExplainCode(p, SnippetFor(command.code, command.language), send);
            var r := ExplainCodeHandler(AsAIProvider(p, send)).Handle(command);
            && (x.Err? ==> r == Err(x.error))
            && (x.Ok? ==> r.Ok? && r.value.explanation == x.value.explanation && r.value.provider == PROVIDER_NAME)
  {
    var x := ExplainCode(p, SnippetFor(command.code, command.language), send);
    var ai := AsAIProvider(p, send);
    assert ai.explainCode(SnippetFor(command.code, command.language)) == x;
  }

  /** Behind the refactor handler, valid code always ends in the wrapped
      `AttributeError`. */
  lemma RefactorUnsupported(p: OpenAIProvider, send: CompletionRequest -> HttpOutcome, command: RefactorCodeCommand)
    requires ValidateCodeContent(Str(command.code)).Ok?
    ensures RefactorCodeHandler(AsAIProvider(p, send)).Handle(command)
            == Err(Provider(REFACTOR_CONTEXT + Message(NoAttribute("refactor_code"))))
  {
    var ai := AsAIProvider(p, send);
    assert ai.refactorCode(SnippetFor(command.code, command.language), command.goal)
        == Err(NoAttribute("refactor_code"));
  }

  /** Behind the test generation handler, likewise. */
  lemma GenerateTestsUnsupported(p: OpenAIProvider, send: CompletionRequest -> HttpOutcome,
                                 command: GenerateTestsCommand)
    requires ValidateCodeContent(Str(command.code)).Ok?
    ensures GenerateTestsHandler(AsAIProvider(p, send)).Handle(command)
            == Err(Provider(TESTS_CONTEXT + Message(NoAttribute("generate_tests"))))
  {
    var ai := AsAIProvider(p, send);
    assert ai.generateTests(SnippetFor(command.code, command.language), command.testFramework)
        == Err(NoAttribute("generate_tests"));
  }

  /** The status error names the code: two codes give the same error only if
      they are equal. */
  lemma StatusCodeErrorDeterminesCode(a: int, b: int)
    requires StatusCodeError(a) == StatusCodeError(b)
    ensures a == b
  {
    if a != 429 && b != 429 {
      var m := StatusCodeError(a).message;
      var pa := if a >= 500 then SERVER_ERROR else API_ERROR;
      var pb := if b >= 500 then SERVER_ERROR else API_ERROR;
      Concat(pa, IntToString(a));
      Concat(pb, IntToString(b));
      if pa != pb {
        Diverge(m, pa, pb, 7);
        assert false;
      }
      IntToStringInjective(a, b);
    }
  }

  /** The timeout error names the configured timeout. */
  lemma TimeoutMessageDeterminesTimeout(a: int, b: int)
    requires TimeoutMessage(a) == TimeoutMessage(b)
    ensures a == b
  {
    var head := "Request timed out after ";
    var s1, s2 := IntToString(a), IntToString(b);
    assert TimeoutMessage(a) == head + (s1 + " seconds");
    assert TimeoutMessage(b) == head + (s2 + " seconds");
    Concat(head, s1 + " seconds");
    Concat(head, s2 + " seconds");
    UpToFirstSpace(s1, " seconds", s2, " seconds");
    IntToStringInjective(a, b);
  }
}
