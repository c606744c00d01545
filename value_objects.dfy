/**
 * The frozen dataclasses of the domain layer. Each is a datatype (immutable by
 * construction) plus a constructor function that runs the dataclass's
 * `__post_init__` checks and returns the `ValueError` they raise as
 * `Err(Other(...))`.
 */
module ValueObjects {
  import opened Wrappers
  import opened Text
  import opened Errors

  /** A piece of code and its optional language hint. */
  datatype CodeSnippet = CodeSnippet(content: string, language: Option<string>) {
    /** `line_count`: newlines plus one for non-empty content, else 0. */
    function LineCount(): nat {
      Text.LineCount(content)
    }

    /** `character_count`: the length of the content. */
    function CharacterCount(): nat {
      |content|
    }
  }

  /** The invariant `__post_init__` enforces. */
  predicate ValidSnippet(s: CodeSnippet) {
    HasVisible(s.content)
  }

  const SNIPPET_EMPTY := "Code content cannot be empty"

  /** `CodeSnippet(content, language)`: the language is stored as given. */
  function NewCodeSnippet(content: string, language: Option<string> := None): (r: Result<CodeSnippet>)
    ensures r.Ok? <==> HasVisible(content)
    ensures r.Ok? ==> r.value == CodeSnippet(content, language) && ValidSnippet(r.value)
    ensures r.Err? ==> r.error == Other(SNIPPET_EMPTY)
  {
    BlankIffNoVisible(content);
    if IsBlank(content) then Err(Other(SNIPPET_EMPTY)) else Ok(CodeSnippet(content, language))
  }

  /** A valid snippet has at least one line, as many as `split("\n")` gives,
      and as many characters as its content. */
  lemma SnippetCounts(s: CodeSnippet)
    requires ValidSnippet(s)
    ensures s.LineCount() == |Split(s.content, '\n')| >= 1
    ensures s.CharacterCount() == |s.content| >= 1
  {
    LineCountIsLines(s.content);
  }

  /** An explanation of a snippet. */
  datatype CodeExplanation = CodeExplanation(
    snippet: CodeSnippet,
    explanation: string,
    provider: string,
    isPlaceholder: bool)

  predicate ValidExplanation(x: CodeExplanation) {
    HasVisible(x.explanation)
  }

  const EXPLANATION_EMPTY := "Explanation cannot be empty"

  /** `CodeExplanation(snippet, explanation, provider, is_placeholder=False)`. */
  function NewCodeExplanation(snippet: CodeSnippet, explanation: string, provider: string,
                              isPlaceholder: bool := false): (r: Result<CodeExplanation>)
    ensures r.Ok? <==> HasVisible(explanation)
    ensures r.Ok? ==> r.value == CodeExplanation(snippet, explanation, provider, isPlaceholder)
    ensures r.Ok? ==> ValidExplanation(r.value)
    ensures r.Err? ==> r.error == Other(EXPLANATION_EMPTY)
  {
    BlankIffNoVisible(explanation);
    if IsBlank(explanation) then Err(Other(EXPLANATION_EMPTY))
    else Ok(CodeExplanation(snippet, explanation, provider, isPlaceholder))
  }

  /** A refactoring suggestion. */
  datatype CodeRefactor = CodeRefactor(
    originalSnippet: CodeSnippet,
    refactoredCode: string,
    explanation: string,
    improvements: seq<string>,
    provider: string,
    isPlaceholder: bool)
  {
    /** `line_count` of the refactored code, not of the original snippet. */
    function LineCount(): nat {
      Text.LineCount(refactoredCode)
    }

    function CharacterCount(): nat {
      |refactoredCode|
    }
  }

  predicate ValidRefactor(x: CodeRefactor) {
    HasVisible(x.refactoredCode) && HasVisible(x.explanation) && x.improvements != []
  }

  const REFACTOR_CODE_EMPTY := "Refactored code cannot be empty"
  const REFACTOR_EXPLANATION_EMPTY := "Refactoring explanation cannot be empty"
  const REFACTOR_NO_IMPROVEMENTS := "At least one improvement must be specified"

  /** `CodeRefactor(...)`: the checks run in the order code, explanation,
      improvements, and the first one that fails decides the error. */
  function NewCodeRefactor(originalSnippet: CodeSnippet, refactoredCode: string, explanation: string,
                           improvements: seq<string>, provider: string,
                           isPlaceholder: bool := false): (r: Result<CodeRefactor>)
    ensures r.Ok? <==> HasVisible(refactoredCode) && HasVisible(explanation) && improvements != []
    ensures r.Ok? ==> r.value == CodeRefactor(originalSnippet, refactoredCode, explanation,
                                              improvements, provider, isPlaceholder)
    ensures !HasVisible(refactoredCode) ==> r == Err(Other(REFACTOR_CODE_EMPTY))
    ensures HasVisible(refactoredCode) && !HasVisible(explanation) ==>
              r == Err(Other(REFACTOR_EXPLANATION_EMPTY))
    ensures HasVisible(refactoredCode) && HasVisible(explanation) && improvements == [] ==>
              r == Err(Other(REFACTOR_NO_IMPROVEMENTS))
  {
    BlankIffNoVisible(refactoredCode);
    BlankIffNoVisible(explanation);
    if IsBlank(refactoredCode) then Err(Other(REFACTOR_CODE_EMPTY))
    else if IsBlank(explanation) then Err(Other(REFACTOR_EXPLANATION_EMPTY))
    else if improvements == [] then Err(Other(REFACTOR_NO_IMPROVEMENTS))
    else Ok(CodeRefactor(originalSnippet, refactoredCode, explanation, improvements, provider, isPlaceholder))
  }

  /** The counts of a valid refactor describe its refactored code: at least one
      line, one per piece of `split("\n")`. */
  lemma RefactorCounts(x: CodeRefactor)
    requires ValidRefactor(x)
    ensures x.LineCount() == |Split(x.refactoredCode, '\n')| >= 1
    ensures x.CharacterCount() == |x.refactoredCode| >= 1
  {
    LineCountIsLines(x.refactoredCode);
  }

  /** A generated test scaffold. */
  datatype TestScaffold = TestScaffold(
    originalSnippet: CodeSnippet,
    testCode: string,
    testFramework: string,
    testCases: seq<string>,
    setupInstructions: Option<string>,
    provider: string,
    isPlaceholder: bool)
  {
    /** `line_count` of the test code. */
    function LineCount(): nat {
      Text.LineCount(testCode)
    }

    function CharacterCount(): nat {
      |testCode|
    }
  }

  predicate ValidScaffold(x: TestScaffold) {
    HasVisible(x.testCode) && HasVisible(x.testFramework) && x.testCases != []
  }

  const TEST_CODE_EMPTY := "Test code cannot be empty"
  const TEST_FRAMEWORK_EMPTY := "Test framework cannot be empty"
  const TEST_NO_CASES := "At least one test case must be specified"

  /** `TestScaffold(...)`: the checks run in the order test code, framework,
      test cases; `setup_instructions` may be absent. */
  function NewTestScaffold(originalSnippet: CodeSnippet, testCode: string, testFramework: string,
                           testCases: seq<string>, setupInstructions: Option<string>, provider: string,
                           isPlaceholder: bool := false): (r: Result<TestScaffold>)
    ensures r.Ok? <==> HasVisible(testCode) && HasVisible(testFramework) && testCases != []
    ensures r.Ok? ==> r.value == TestScaffold(originalSnippet, testCode, testFramework, testCases,
                                              setupInstructions, provider, isPlaceholder)
    ensures !HasVisible(testCode) ==> r == Err(Other(TEST_CODE_EMPTY))
    ensures HasVisible(testCode) && !HasVisible(testFramework) ==> r == Err(Other(TEST_FRAMEWORK_EMPTY))
    ensures HasVisible(testCode) && HasVisible(testFramework) && testCases == [] ==>
              r == Err(Other(TEST_NO_CASES))
  {
    BlankIffNoVisible(testCode);
    BlankIffNoVisible(testFramework);
    if IsBlank(testCode) then Err(Other(TEST_CODE_EMPTY))
    else if IsBlank(testFramework) then Err(Other(TEST_FRAMEWORK_EMPTY))
    else if testCases == [] then Err(Other(TEST_NO_CASES))
    else Ok(TestScaffold(originalSnippet, testCode, testFramework, testCases, setupInstructions,
                         provider, isPlaceholder))
  }

  /** The counts of a valid scaffold describe its test code. */
  lemma ScaffoldCounts(x: TestScaffold)
    requires ValidScaffold(x)
    ensures x.LineCount() == |Split(x.testCode, '\n')| >= 1
    ensures x.CharacterCount() == |x.testCode| >= 1
  {
    LineCountIsLines(x.testCode);
  }
}
