/** The immutable command records built by the transport layer. */
module Commands {
  import opened Wrappers

  datatype ExplainCodeCommand = ExplainCodeCommand(code: string, language: Option<string>)

  datatype RefactorCodeCommand = RefactorCodeCommand(code: string, language: Option<string>, goal: Option<string>)

  datatype GenerateTestsCommand =
    GenerateTestsCommand(code: string, language: Option<string>, testFramework: Option<string>)

  /** The payload of any of the three commands. */
  datatype AnyCommand =
    | Explain(explain: ExplainCodeCommand)
    | Refactor(refactor: RefactorCodeCommand)
    | GenerateTests(generateTests: GenerateTestsCommand)
}

/** The transfer objects the handlers return. */
module Dtos {
  import opened Wrappers

  datatype ExplainResultDTO = ExplainResultDTO(
    explanation: string,
    lineCount: int,
    characterCount: int,
    provider: string,
    placeholder: bool)

  datatype RefactorResultDTO = RefactorResultDTO(
    refactoredCode: string,
    explanation: string,
    improvements: seq<string>,
    lineCount: int,
    characterCount: int,
    provider: string,
    placeholder: bool)

  datatype TestScaffoldResultDTO = TestScaffoldResultDTO(
    testCode: string,
    testFramework: string,
    testCases: seq<string>,
    setupInstructions: Option<string>,
    lineCount: int,
    characterCount: int,
    provider: string,
    placeholder: bool)

  /** Whatever a handler hands back through the dispatcher. */
  datatype Response =
    | Explained(explained: ExplainResultDTO)
    | Refactored(refactored: RefactorResultDTO)
    | TestsGenerated(testsGenerated: TestScaffoldResultDTO)
}

/**
 * The AI provider seen by the handlers: its name and three operations, each of
 * which returns a value object or raises. The interface class declares only
 * `explain_code` and `provider_name`; the handlers also call `refactor_code`
 * and `generate_tests`, so those are operations here too, left abstract.
 */
module AIProviders {
  import opened Wrappers
  import opened Errors
  import opened ValueObjects

  datatype AIProvider = AIProvider(
    providerName: string,
    explainCode: CodeSnippet -> Result<CodeExplanation>,
    refactorCode: (CodeSnippet, Option<string>) -> Result<CodeRefactor>,
    generateTests: (CodeSnippet, Option<string>) -> Result<TestScaffold>)

  /** A provider whose results passed their own constructors, as a Python
      object of those classes always has. */
  ghost predicate Lawful(p: AIProvider) {
    && (forall s :: p.explainCode(s).Ok? ==> ValidExplanation(p.explainCode(s).value))
    && (forall s, g :: p.refactorCode(s, g).Ok? ==> ValidRefactor(p.refactorCode(s, g).value))
    && (forall s, f :: p.generateTests(s, f).Ok? ==> ValidScaffold(p.generateTests(s, f).value))
  }
}
