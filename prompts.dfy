/** `ExplainPrompts`: the prompt pair the OpenAI provider sends for an
    explanation. */
module ExplainPrompts {
  import opened Wrappers
  import opened Text
  import opened ValueObjects

  const PROMPT_VERSION := "1.0.0"

  /** `get_version`. */
  function GetVersion(): string {
    PROMPT_VERSION
  }

  /** `get_system_prompt`: fixed text, whatever the request. */
  const SYSTEM_PROMPT :=
    "You are an expert code analysis assistant. Your job is to provide "
    + "clear, comprehensive explanations of code snippets.\n"
    + "\n"
    + "Guidelines:\n"
    + "1. Explain what the code does in plain language\n"
    + "2. Break down complex logic into understandable parts\n"
    + "3. Identify key programming concepts and patterns\n"
    + "4. Mention any potential issues or improvements\n"
    + "5. Use markdown formatting for better readability\n"
    + "6. Be concise but thorough\n"
    + "7. Assume the reader has basic programming knowledge\n"
    + "\n"
    + "Format your response with clear sections using markdown headers."

  const INTRO := "Please explain this code snippet"
  const HINT_OPENING := " (Language: "
  const HEADER_END := ":\n"
  const LINE_BREAK := "\n"
  const OUTRO := "Provide a clear explanation of what this code does, "
    + "how it works, and any notable patterns or concepts it demonstrates."

  /** `" (Language: X)"` when the snippet has a language, else nothing. */
  function LanguageHint(language: Option<string>): string {
    if Truthy(language) then HINT_OPENING + (language.value + ")") else ""
  }

  /** The tag of the opening fence: the language, or "text" without one. */
  function FenceTag(language: Option<string>): (tag: string)
    ensures Truthy(language) ==> tag == language.value
    ensures !Truthy(language) ==> tag == "text"
  {
    if Truthy(language) then language.value else "text"
  }

  /** The code block of the prompt, on lines of its own. */
  function CodeBlock(snippet: CodeSnippet): string {
    "\n" + Fenced(FenceTag(snippet.language), snippet.content)
  }

  /** Where the pieces of a prompt built as `a + (b + (c + (d + (e + f))))`
      sit in it. */
  lemma Layout(a: string, b: string, c: string, d: string, e: string, f: string)
    ensures var r := a + (b + (c + (d + (e + f))));
            && StartsWith(r, a)
            && OccursAt(b, r, |a|)
            && OccursAt(c, r, |a| + |b|)
            && OccursAt(d, r, |a| + |b| + |c|)
            && EndsWith(r, d + (e + f))
            && EndsWith(r, f)
  {
    var r := a + (b + (c + (d + (e + f))));
    var k := |a| + |b| + |c|;
    assert r[..|a|] == a;
    assert r[|a|..|a| + |b|] == b;
    assert r[|a| + |b|..k] == c;
    assert r[k..k + |d|] == d;
    assert r[k..] == d + (e + f);
    assert r[|r| - |f|..] == f;
  }

  /** `get_user_prompt(snippet)`: the fixed opening, the language hint, a
      colon ending the line, the content verbatim in a block fenced with the
      tag, a line break and the fixed closing. */
  function GetUserPrompt(snippet: CodeSnippet): (r: string)
    ensures StartsWith(r, INTRO)
    ensures OccursAt(LanguageHint(snippet.language), r, |INTRO|)
    ensures OccursAt(HEADER_END, r, |INTRO| + |LanguageHint(snippet.language)|)
    ensures OccursAt(CodeBlock(snippet), r, |INTRO| + |LanguageHint(snippet.language)| + |HEADER_END|)
    ensures EndsWith(r, CodeBlock(snippet) + (LINE_BREAK + OUTRO))
    ensures EndsWith(r, OUTRO)
  {
    Layout(INTRO, LanguageHint(snippet.language), HEADER_END, CodeBlock(snippet), LINE_BREAK, OUTRO);
    INTRO + (LanguageHint(snippet.language) + (HEADER_END + (CodeBlock(snippet) + (LINE_BREAK + OUTRO))))
  }

  /** The prompt opens with the language hint exactly when the snippet has a
      language, and the hint is then " (Language: X)" for its language X. */
  lemma LanguageHintIff(snippet: CodeSnippet)
    ensures StartsWith(GetUserPrompt(snippet), INTRO + HINT_OPENING) <==> Truthy(snippet.language)
    ensures Truthy(snippet.language) ==>
              StartsWith(GetUserPrompt(snippet), INTRO + (HINT_OPENING + (snippet.language.value + ")")))
  {
    var r := GetUserPrompt(snippet);
    var tail := CodeBlock(snippet) + (LINE_BREAK + OUTRO);
    if Truthy(snippet.language) {
      StartsWithNested(INTRO, HINT_OPENING, snippet.language.value + ")", HEADER_END + tail);
      TwoPiecePrefix(INTRO, LanguageHint(snippet.language), HEADER_END + tail);
    } else {
      assert r == INTRO + ("" + (HEADER_END + tail));
      assert r[|INTRO|] == ':';
    }
  }
}

/** `RefactorPrompts`: the prompts for a refactoring request. */
module RefactorPrompts {
  import opened Wrappers
  import opened Text

  /** `get_system_prompt`: fixed text. */
  const SYSTEM_PROMPT :=
    "You are an expert software engineer specializing in "
    + "code refactoring and improvement.\n"
    + "\n"
    + "Your task is to analyze the provided code snippet and "
    + "suggest meaningful refactoring improvements.\n"
    + "Focus on:\n"
    + "- Code readability and maintainability\n"
    + "- Following best practices and design patterns\n"
    + "- Reducing complexity and improving structure\n"
    + "- Eliminating code smells\n"
    + "- Making the code more testable\n"
    + "\n"
    + "Provide:\n"
    + "1. A clear explanation of the refactoring suggestions\n"
    + "2. The refactored code with improvements\n"
    + "3. Specific benefits of the changes\n"
    + "4. Any trade-offs or considerations\n"
    + "\n"
    + "Format your response as a structured analysis with clear sections."

  const INTRO := "Please analyze and refactor the following code snippet:\n\n"
  const GOAL_OPENING := "\nSpecific refactoring goal: "
  const OUTRO_HEAD := "\nPlease provide:"
  const OUTRO := OUTRO_HEAD + OUTRO_BODY
  const OUTRO_BODY :=
    "\n"
    + "1. **Analysis**: What issues or improvements do you see?\n"
    + "2. **Refactored Code**: The improved version\n"
    + "3. **Benefits**: What advantages does this refactoring provide?\n"
    + "4. **Considerations**: Any potential trade-offs "
    + "or additional improvements?\n"
    + "\n"
    + "Focus on practical, actionable improvements that enhance code quality."

  const CODE_TAG := "code"
  const BLANK_LINE := "\n"
  const GOAL_CLOSING := "\n\n"

  /** The goal line block, present only for a truthy goal. */
  function GoalBlock(goal: Option<string>): string {
    if Truthy(goal) then GOAL_OPENING + (goal.value + GOAL_CLOSING) else ""
  }

  /** Where the pieces of a prompt built as `a + (b + (c + (d + e)))` sit in
      it. */
  lemma Layout(a: string, b: string, c: string, d: string, e: string)
    ensures var r := a + (b + (c + (d + e)));
            && StartsWith(r, a)
            && OccursAt(b, r, |a|)
            && OccursAt(c, r, |a| + |b|)
            && r[|a| + |b| + |c|..] == d + e
            && EndsWith(r, e)
  {
    var r := a + (b + (c + (d + e)));
    assert r[..|a|] == a;
    assert r[|a|..|a| + |b|] == b;
    assert r[|a| + |b|..|a| + |b| + |c|] == c;
    assert r[|a| + |b| + |c|..] == d + e;
    assert r[|r| - |e|..] == e;
  }

  /** `get_user_prompt(code, goal)`: the fixed intro, the code verbatim in a
      "```code" block, an empty line, the goal line if any, then the fixed
      request. */
  function GetUserPrompt(code: string, goal: Option<string>): (r: string)
    ensures StartsWith(r, INTRO)
    ensures OccursAt(Fenced(CODE_TAG, code), r, |INTRO|)
    ensures OccursAt(BLANK_LINE, r, |INTRO| + |Fenced(CODE_TAG, code)|)
    ensures EndsWith(r, OUTRO)
  {
    Layout(INTRO, Fenced(CODE_TAG, code), BLANK_LINE, GoalBlock(goal), OUTRO);
    INTRO + (Fenced(CODE_TAG, code) + (BLANK_LINE + (GoalBlock(goal) + OUTRO)))
  }

  /** Where the goal line would start: right after the fenced code and the
      empty line after it. */
  function GoalOffset(code: string): nat {
    |INTRO| + |Fenced(CODE_TAG, code)| + |BLANK_LINE|
  }

  /** The line "Specific refactoring goal: <goal>" follows the code exactly
      when the goal is truthy. */
  lemma GoalLineIff(code: string, goal: Option<string>)
    ensures StartsWith(GetUserPrompt(code, goal)[GoalOffset(code)..], GOAL_OPENING) <==> Truthy(goal)
    ensures Truthy(goal) ==>
              StartsWith(GetUserPrompt(code, goal)[GoalOffset(code)..], GOAL_OPENING + (goal.value + GOAL_CLOSING))
  {
    Concat(OUTRO_HEAD, OUTRO_BODY);
    OptionalAfterThree(INTRO, Fenced(CODE_TAG, code), BLANK_LINE, GoalBlock(goal), OUTRO, OUTRO_HEAD, GOAL_OPENING,
                       if Truthy(goal) then goal.value + GOAL_CLOSING else [], Truthy(goal), 1);
  }
}

/** `TestGenerationPrompts`: the prompts for a test-generation request. */
module TestGenerationPrompts {
  import opened Wrappers
  import opened Text

  /** `get_system_prompt`: fixed text. */
  const SYSTEM_PROMPT :=
    "You are an expert software engineer specializing in "
    + "writing comprehensive unit tests.\n"
    + "\n"
    + "Your task is to analyze the provided code snippet and "
    + "generate a complete test scaffold that covers:\n"
    + "- Happy path scenarios\n"
    + "- Edge cases and error conditions\n"
    + "- Input validation\n"
    + "- Integration points\n"
    + "- Mocking external dependencies\n"
    + "\n"
    + "Focus on:\n"
    + "- High test coverage (aim for >80%)\n"
    + "- Meaningful test names that describe behavior\n"
    + "- Proper test structure with Arrange-Act-Assert pattern\n"
    + "- Realistic test data and scenarios\n"
    + "- Both positive and negative test cases\n"
    + "\n"
    + "Use modern testing best practices and provide tests "
    + "that are maintainable and reliable."

  const INTRO := "Please analyze the following code snippet"
  const MIDDLE := MIDDLE_HEAD + MIDDLE_TAIL
  const MIDDLE_HEAD := " and"
  const MIDDLE_TAIL := " generate a comprehensive unit test scaffold"
  const LANGUAGE_OPENING := " ("
  const LANGUAGE_CLOSING := ")"
  const FRAMEWORK_OPENING := " using "
  const SEPARATOR := ":\n\n"
  const CODE_TAG := "code"
  const OUTRO :=
    "\n"
    + "Please provide:\n"
    + "1. **Test Analysis**: What functionality needs to be tested?\n"
    + "2. **Test Structure**: How should the tests be organized?\n"
    + "3. **Complete Test Code**: Full test "
    + "implementation with all necessary imports\n"
    + "4. **Coverage Notes**: What scenarios are covered and any gaps?\n"
    + "\n"
    + "Ensure the tests are:\n"
    + "- Comprehensive but focused\n"
    + "- Easy to understand and maintain\n"
    + "- Following testing best practices\n"
    + "- Including both positive and negative cases\n"
    + "\n"
    + "If the code has external dependencies, include "
    + "examples of how to mock them."

  /** `" (<language>)"` for a truthy language, else nothing. */
  function LanguageHint(language: Option<string>): string {
    if Truthy(language) then LANGUAGE_OPENING + (language.value + LANGUAGE_CLOSING) else ""
  }

  /** `" using <framework>"` for a truthy framework, else nothing. */
  function FrameworkHint(framework: Option<string>): string {
    if Truthy(framework) then FRAMEWORK_OPENING + framework.value else ""
  }

  /** Where the framework hint starts: after the intro, the language hint and
      the fixed middle of the first sentence. */
  function FrameworkOffset(language: Option<string>): nat {
    |INTRO| + |LanguageHint(language)| + |MIDDLE|
  }

  /** The prompt after the framework hint. */
  function Rest(code: string): string {
    SEPARATOR + (Fenced(CODE_TAG, code) + OUTRO)
  }

  /** Where the pieces of a prompt built as `a + (b + (c + (d + (e + (f + g)))))`
      sit in it. */
  lemma Layout(a: string, b: string, c: string, d: string, e: string, f: string, g: string)
    ensures var r := a + (b + (c + (d + (e + (f + g)))));
            && StartsWith(r, a)
            && OccursAt(b, r, |a|)
            && OccursAt(c, r, |a| + |b|)
            && OccursAt(d, r, |a| + |b| + |c|)
            && EndsWith(r, f + g)
            && EndsWith(r, g)
  {
    var r := a + (b + (c + (d + (e + (f + g)))));
    var k := |a| + |b| + |c|;
    assert r[..|a|] == a;
    assert r[|a|..|a| + |b|] == b;
    assert r[|a| + |b|..k] == c;
    assert r[k..k + |d|] == d;
    assert r[|r| - |f + g|..] == f + g;
    assert r[|r| - |g|..] == g;
  }

  /** `get_user_prompt(code, language, test_framework)`: in the first sentence
      the language hint comes before the framework hint; the code follows
      verbatim in a "```code" block. */
  function GetUserPrompt(code: string, language: Option<string>, framework: Option<string>): (r: string)
    ensures StartsWith(r, INTRO)
    ensures OccursAt(LanguageHint(language), r, |INTRO|)
    ensures OccursAt(MIDDLE, r, |INTRO| + |LanguageHint(language)|)
    ensures OccursAt(FrameworkHint(framework), r, FrameworkOffset(language))
    ensures |INTRO| + |LanguageHint(language)| <= FrameworkOffset(language)
    ensures EndsWith(r, Fenced(CODE_TAG, code) + OUTRO)
    ensures EndsWith(r, OUTRO)
  {
    var lh := LanguageHint(language);
    var fh := FrameworkHint(framework);
    Layout(INTRO, lh, MIDDLE, fh, SEPARATOR, Fenced(CODE_TAG, code), OUTRO);
    INTRO + (lh + (MIDDLE + (fh + (SEPARATOR + (Fenced(CODE_TAG, code) + OUTRO)))))
  }

  /** The language hint is present exactly when the language is truthy. */
  lemma LanguageHintIff(code: string, language: Option<string>, framework: Option<string>)
    ensures StartsWith(GetUserPrompt(code, language, framework)[|INTRO|..], LANGUAGE_OPENING) <==> Truthy(language)
    ensures Truthy(language) ==>
              StartsWith(GetUserPrompt(code, language, framework)[|INTRO|..],
                         LANGUAGE_OPENING + (language.value + LANGUAGE_CLOSING))
  {
    var t := MIDDLE + (FrameworkHint(framework) + Rest(code));
    HeadOfNested(MIDDLE_HEAD, MIDDLE_TAIL, FrameworkHint(framework) + Rest(code));
    OptionalAfterOne(INTRO, LanguageHint(language), t, MIDDLE_HEAD, LANGUAGE_OPENING,
                     if Truthy(language) then language.value + LANGUAGE_CLOSING else [], Truthy(language), 1);
  }

  /** The framework hint is present exactly when the framework is truthy. */
  lemma FrameworkHintIff(code: string, language: Option<string>, framework: Option<string>)
    ensures StartsWith(GetUserPrompt(code, language, framework)[FrameworkOffset(language)..], FRAMEWORK_OPENING)
            <==> Truthy(framework)
    ensures Truthy(framework) ==>
              StartsWith(GetUserPrompt(code, language, framework)[FrameworkOffset(language)..],
                         FRAMEWORK_OPENING + framework.value)
  {
    OptionalBeforeKnown(GetUserPrompt(code, language, framework), INTRO, LanguageHint(language), MIDDLE,
                        FrameworkHint(framework), SEPARATOR, Fenced(CODE_TAG, code) + OUTRO,
                        FRAMEWORK_OPENING, if Truthy(framework) then framework.value else [], Truthy(framework), 0);
  }
}
