/**
 * `CodeValidationService`: the business rules on submitted code and the
 * normalisation of the language hint.
 */
module CodeValidation {
  import opened Wrappers
  import opened Text
  import opened Errors
  import opened ValueObjects

  const MAX_CODE_LENGTH: nat := 50000
  const MIN_CODE_LENGTH: nat := 1

  const NOT_A_STRING := "Code must be a string"
  const CODE_EMPTY := "Code cannot be empty"
  const CODE_TOO_LONG := "Code exceeds maximum length of " + NatToString(MAX_CODE_LENGTH) + " characters"

  /** The argument handed to `validate_code_content`: a `str`, or any value
      that is not one. */
  datatype CodeArg = Str(text: string) | NonStr

  /** `validate_code_content`: not a string, then blank, then longer than the
      maximum, each a plain `ValidationError`. The too-long error carries no
      size pair. */
  function ValidateCodeContent(code: CodeArg): (r: Result<()>)
    ensures r.Ok? <==> code.Str? && HasVisible(code.text) && |code.text| <= MAX_CODE_LENGTH
    ensures code.NonStr? ==> r == Err(Validation(NOT_A_STRING))
    ensures code.Str? && !HasVisible(code.text) ==> r == Err(Validation(CODE_EMPTY))
    ensures code.Str? && HasVisible(code.text) && |code.text| > MAX_CODE_LENGTH ==>
              r == Err(Validation(CODE_TOO_LONG))
    ensures r.Err? ==> r.error.Validation?
  {
    if code.NonStr? then Err(Validation(NOT_A_STRING))
    else
      BlankIffNoVisible(code.text);
      if IsBlank(code.text) then Err(Validation(CODE_EMPTY))
      else if |code.text| > MAX_CODE_LENGTH then Err(Validation(CODE_TOO_LONG))
      else Ok(())
  }

  /** The language hint: absent or "" gives none; otherwise stripped then
      lowered, and none again if nothing is left. */
  function NormalizeLanguage(language: Option<string>): (r: Option<string>)
    ensures r.Some? <==> language.Some? && HasVisible(language.value)
    ensures r.Some? ==> r.value == Lower(Strip(language.value))
    ensures r.Some? ==> IsNormalLanguage(r.value)
  {
    if Truthy(language) then
      var normalized := Lower(Strip(language.value));
      NormalizedShape(language.value);
      if normalized == [] then None else Some(normalized)
    else
      None
  }

  /** What a normalised language looks like: non-empty, no whitespace at
      either end, no upper-case letter. */
  predicate IsNormalLanguage(s: string) {
    s != [] && !IsSpace(s[0]) && !IsSpace(s[|s| - 1]) && IsLower(s)
  }

  /** Stripping then lowering leaves nothing exactly for a blank string, and
      otherwise a normalised language. */
  lemma NormalizedShape(s: string)
    ensures Lower(Strip(s)) == [] <==> !HasVisible(s)
    ensures Lower(Strip(s)) != [] ==> IsNormalLanguage(Lower(Strip(s)))
  {
    var t := Strip(s);
    BlankIffNoVisible(s);
    StripShape(s);
    LowerIsLower(t);
    if t != [] {
      LowerKeepsSpace(t[0]);
      LowerKeepsSpace(t[|t| - 1]);
    }
  }

  /** A normalised language is left as it is by stripping and lowering. */
  lemma NormalFixed(s: string)
    requires IsNormalLanguage(s)
    ensures Lower(Strip(s)) == s
  {
    assert TrimLeft(s) == s;
    assert TrimRight(s) == s;
    LowerIsLower(s);
  }

  /** Normalising an already normalised hint changes nothing. */
  lemma NormalizeLanguageIdempotent(language: Option<string>)
    ensures NormalizeLanguage(NormalizeLanguage(language)) == NormalizeLanguage(language)
  {
    var n := NormalizeLanguage(language);
    if n.Some? {
      NormalFixed(n.value);
    }
  }

  /** `create_code_snippet`: validates the code, keeps it exactly as given
      (not stripped) and normalises the language. */
  function CreateCodeSnippet(code: CodeArg, language: Option<string> := None): (r: Result<CodeSnippet>)
    ensures r.Ok? <==> ValidateCodeContent(code).Ok?
    ensures r.Err? ==> r.error == ValidateCodeContent(code).error
    ensures r.Ok? ==> r.value.content == code.text
    ensures r.Ok? ==> r.value.language == NormalizeLanguage(language)
    ensures r.Ok? ==> ValidSnippet(r.value)
  {
    var _ :- ValidateCodeContent(code);
    NewCodeSnippet(code.text, NormalizeLanguage(language))
  }

  /** A blank string longer than the maximum gets the empty-code error, since
      emptiness is checked first; exactly the maximum length is accepted. */
  lemma EmptinessBeforeLength(code: string)
    ensures !HasVisible(code) ==> ValidateCodeContent(Str(code)) == Err(Validation(CODE_EMPTY))
    ensures HasVisible(code) && |code| == MAX_CODE_LENGTH ==> ValidateCodeContent(Str(code)).Ok?
  {
  }
}
