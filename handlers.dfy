/**
 * The three capability handlers. Each validates the command's code, builds a
 * snippet with the normalised language, calls its provider operation and maps
 * the value object to a DTO. Validation errors and provider errors leave the
 * handler unchanged; any other exception is wrapped in an `AIProviderError`
 * whose message names the request kind and carries `str(e)`.
 */
module Handlers {
  import opened Wrappers
  import opened Text
  import opened Errors
  import opened ValueObjects
  import opened CodeValidation
  import opened Commands
  import opened Dtos
  import opened AIProviders

  const EXPLAIN_CONTEXT := "Failed to process explanation request: "
  const REFACTOR_CONTEXT := "Failed to process refactor request: "
  const TESTS_CONTEXT := "Failed to process test generation request: "

  /** The handlers' `except` clauses: `(ValidationError, AIProviderError)` are
      re-raised as they are, anything else becomes an `AIProviderError`. A
      `DomainError` that is not a `ValidationError` is wrapped too. */
  function Reraise(e: Error, context: string): (r: Error)
    ensures IsValidationError(r) || IsProviderError(r)
    ensures (IsValidationError(e) || IsProviderError(e)) <==> r == e
    ensures r != e ==> r == Provider(context + Message(e))
  {
    if IsValidationError(e) || IsProviderError(e) then e else Provider(context + Message(e))
  }

  /** The snippet a handler builds from a command whose code is valid. */
  function SnippetFor(code: string, language: Option<string>): CodeSnippet {
    CodeSnippet(code, NormalizeLanguage(language))
  }

  datatype ExplainCodeHandler = ExplainCodeHandler(aiProvider: AIProvider) {

    function Handle(command: ExplainCodeCommand): (r: Result<ExplainResultDTO>)
      ensures ValidateCodeContent(Str(command.code)).Err? ==>
                r == Err(ValidateCodeContent(Str(command.code)).error)
      ensures r.Err? ==> IsValidationError(r.error) || IsProviderError(r.error)
      ensures ValidateCodeContent(Str(command.code)).Ok? ==>
                var x := aiProvider.explainCode(SnippetFor(command.code, command.language));
                && (r.Ok? <==> x.Ok?)
                && (x.Err? ==> r.error == Reraise(x.error, EXPLAIN_CONTEXT))
                && (x.Ok? ==> r.value == ExplainResultDTO(x.value.explanation, LineCount(command.code),
                                                          |command.code|, x.value.provider,
                                                          x.value.isPlaceholder))
      ensures r.Ok? ==> r.value.lineCount >= 1 && r.value.characterCount == |command.code|
    {
      match CreateCodeSnippet(Str(command.code), command.language)
      case Err(e) => Err(Reraise(e, EXPLAIN_CONTEXT))
      case Ok(snippet) =>
        SnippetCounts(snippet);
        match aiProvider.explainCode(snippet)
        case Err(e) => Err(Reraise(e, EXPLAIN_CONTEXT))
        case Ok(explanation) =>
          Ok(ExplainResultDTO(
               explanation.explanation,
               snippet.LineCount(),
               snippet.CharacterCount(),
               explanation.provider,
               explanation.isPlaceholder))
    }
  }

  datatype RefactorCodeHandler = RefactorCodeHandler(aiProvider: AIProvider) {

    /** The goal reaches the provider exactly as in the command. */
    function Handle(command: RefactorCodeCommand): (r: Result<RefactorResultDTO>)
      ensures ValidateCodeContent(Str(command.code)).Err? ==>
                r == Err(ValidateCodeContent(Str(command.code)).error)
      ensures r.Err? ==> IsValidationError(r.error) || IsProviderError(r.error)
      ensures ValidateCodeContent(Str(command.code)).Ok? ==>
                var x := aiProvider.refactorCode(SnippetFor(command.code, command.language), command.goal);
                && (r.Ok? <==> x.Ok?)
                && (x.Err? ==> r.error == Reraise(x.error, REFACTOR_CONTEXT))
                && (x.Ok? ==> r.value == RefactorResultDTO(x.value.refactoredCode, x.value.explanation,
                                                           x.value.improvements,
                                                           LineCount(x.value.refactoredCode),
                                                           |x.value.refactoredCode|, x.value.provider,
                                                           x.value.isPlaceholder))
    {
      var snippet :- CreateCodeSnippet(Str(command.code), command.language);
      match aiProvider.refactorCode(snippet, command.goal)
      case Err(e) => Err(Reraise(e, REFACTOR_CONTEXT))
      case Ok(refactor) =>
        Ok(RefactorResultDTO(
             refactor.refactoredCode,
             refactor.explanation,
             refactor.improvements,
             refactor.LineCount(),
             refactor.CharacterCount(),
             refactor.provider,
             refactor.isPlaceholder))
    }
  }

  datatype GenerateTestsHandler = GenerateTestsHandler(aiProvider: AIProvider) {

    /** The framework reaches the provider exactly as in the command. */
    function Handle(command: GenerateTestsCommand): (r: Result<TestScaffoldResultDTO>)
      ensures ValidateCodeContent(Str(command.code)).Err? ==>
                r == Err(ValidateCodeContent(Str(command.code)).error)
      ensures r.Err? ==> IsValidationError(r.error) || IsProviderError(r.error)
      ensures ValidateCodeContent(Str(command.code)).Ok? ==>
                var x := aiProvider.generateTests(SnippetFor(command.code, command.language),
                                                  command.testFramework);
                && (r.Ok? <==> x.Ok?)
                && (x.Err? ==> r.error == Reraise(x.error, TESTS_CONTEXT))
                && (x.Ok? ==> r.value == TestScaffoldResultDTO(x.value.testCode, x.value.testFramework,
                                                               x.value.testCases, x.value.setupInstructions,
                                                               LineCount(x.value.testCode),
                                                               |x.value.testCode|, x.value.provider,
                                                               x.value.isPlaceholder))
    {
      var snippet :- CreateCodeSnippet(Str(command.code), command.language);
      match aiProvider.generateTests(snippet, command.testFramework)
      case Err(e) => Err(Reraise(e, TESTS_CONTEXT))
      case Ok(scaffold) =>
        Ok(TestScaffoldResultDTO(
             scaffold.testCode,
             scaffold.testFramework,
             scaffold.testCases,
             scaffold.setupInstructions,
             scaffold.LineCount(),
             scaffold.CharacterCount(),
             scaffold.provider,
             scaffold.isPlaceholder))
    }
  }

  /** Invalid code never reaches a provider: the outcome is the same whatever
      provider the handlers hold. */
  lemma ValidationPrecedesProvider(p1: AIProvider, p2: AIProvider, code: string, language: Option<string>,
                                   goal: Option<string>, framework: Option<string>)
    requires ValidateCodeContent(Str(code)).Err?
    ensures ExplainCodeHandler(p1).Handle(ExplainCodeCommand(code, language))
         == ExplainCodeHandler(p2).Handle(ExplainCodeCommand(code, language))
    ensures RefactorCodeHandler(p1).Handle(RefactorCodeCommand(code, language, goal))
         == RefactorCodeHandler(p2).Handle(RefactorCodeCommand(code, language, goal))
    ensures GenerateTestsHandler(p1).Handle(GenerateTestsCommand(code, language, framework))
         == GenerateTestsHandler(p2).Handle(GenerateTestsCommand(code, language, framework))
  {
  }

  /** With a provider whose results are valid value objects, every successful
      result reports at least one line and a non-empty text. */
  lemma SuccessfulResultsHaveLines(p: AIProvider, rc: RefactorCodeCommand, gc: GenerateTestsCommand)
    requires Lawful(p)
    ensures RefactorCodeHandler(p).Handle(rc).Ok? ==>
              RefactorCodeHandler(p).Handle(rc).value.lineCount >= 1 &&
              RefactorCodeHandler(p).Handle(rc).value.improvements != []
    ensures GenerateTestsHandler(p).Handle(gc).Ok? ==>
              GenerateTestsHandler(p).Handle(gc).value.lineCount >= 1 &&
              GenerateTestsHandler(p).Handle(gc).value.testCases != []
  {
    var rs := SnippetFor(rc.code, rc.language);
    if RefactorCodeHandler(p).Handle(rc).Ok? {
      RefactorCounts(p.refactorCode(rs, rc.goal).value);
    }
    var gs := SnippetFor(gc.code, gc.language);
    if GenerateTestsHandler(p).Handle(gc).Ok? {
      ScaffoldCounts(p.generateTests(gs, gc.testFramework).value);
    }
  }
}
