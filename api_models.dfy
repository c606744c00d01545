/**
 * The request model `ExplainCodeRequest`: field bounds checked first, then the
 * field validators, each field on its own; every failing field is reported.
 */
module ApiModels {
  import opened Wrappers
  import opened Text
  import opened CodeValidation

  const CODE_MIN_LENGTH: nat := 1
  const CODE_MAX_LENGTH: nat := 50000
  const LANGUAGE_MAX_LENGTH: nat := 50
  const CODE_BLANK := "Code cannot be empty or only whitespace"

  datatype ExplainCodeRequest = ExplainCodeRequest(code: string, language: Option<string>)

  /** What can be wrong with one field. */
  datatype FieldIssue =
    | CodeTooShort
    | CodeTooLong
    | CodeBlank(message: string)
    | LanguageTooLong

  /** The `code` field: length bounds, then `validate_code_content`, which
      rejects whitespace-only code and otherwise returns it unchanged. */
  function CheckCode(code: string): (r: Option<FieldIssue>)
    ensures r.None? <==> CODE_MIN_LENGTH <= |code| <= CODE_MAX_LENGTH && HasVisible(code)
    ensures |code| < CODE_MIN_LENGTH ==> r == Some(CodeTooShort)
    ensures |code| > CODE_MAX_LENGTH ==> r == Some(CodeTooLong)
    ensures CODE_MIN_LENGTH <= |code| <= CODE_MAX_LENGTH && !HasVisible(code) ==> r == Some(CodeBlank(CODE_BLANK))
  {
    if |code| < CODE_MIN_LENGTH then Some(CodeTooShort)
    else if |code| > CODE_MAX_LENGTH then Some(CodeTooLong)
    else if !HasContent(code) then Some(CodeBlank(CODE_BLANK))
    else None
  }

  /** `validate_language`: none, "" and whitespace-only give none; anything
      else is lower-cased but not trimmed. */
  function ValidateLanguage(language: Option<string>): (r: Option<string>)
    ensures r.Some? <==> language.Some? && HasVisible(language.value)
    ensures r.Some? ==> r.value == Lower(language.value) && IsLower(r.value)
  {
    LowerIsLower(if language.Some? then language.value else []);
    if Truthy(language) && IsBlank(language.value) then
      BlankIffNoVisible(language.value);
      None
    else if Truthy(language) then
      BlankIffNoVisible(language.value);
      Some(Lower(language.value))
    else None
  }

  /** Model validation: either the request with its validated fields, or the
      issues of every failing field, code first. */
  datatype Parsed = Accepted(request: ExplainCodeRequest) | Rejected(issues: seq<FieldIssue>)

  function ParseExplainCodeRequest(code: string, language: Option<string>): (r: Parsed)
    ensures r.Accepted? <==>
              CheckCode(code).None? && !(language.Some? && |language.value| > LANGUAGE_MAX_LENGTH)
    ensures r.Accepted? ==> r.request == ExplainCodeRequest(code, ValidateLanguage(language))
    ensures r.Rejected? ==> 1 <= |r.issues| <= 2
    ensures r.Rejected? && CheckCode(code).Some? ==> r.issues[0] == CheckCode(code).value
    ensures r.Rejected? ==>
              (LanguageTooLong in r.issues <==> language.Some? && |language.value| > LANGUAGE_MAX_LENGTH)
    ensures r.Rejected? ==>
              forall i :: 0 <= i < |r.issues| && r.issues[i] != LanguageTooLong ==> CheckCode(code) == Some(r.issues[i])
    ensures r.Rejected? ==>
              |r.issues| == (if CheckCode(code).Some? then 1 else 0)
                            + (if language.Some? && |language.value| > LANGUAGE_MAX_LENGTH then 1 else 0)
  {
    var codeIssues := if CheckCode(code).Some? then [CheckCode(code).value] else [];
    var languageIssues := if language.Some? && |language.value| > LANGUAGE_MAX_LENGTH then [LanguageTooLong] else [];
    if codeIssues + languageIssues == [] then
      Accepted(ExplainCodeRequest(code, ValidateLanguage(language)))
    else
      assert codeIssues != [] ==> codeIssues[0] != LanguageTooLong;
      Rejected(codeIssues + languageIssues)
  }

  /** The request model accepts a code string exactly when the domain service
      would: the extra minimum length is implied by non-blankness. */
  lemma CodeRulesAgree(code: string)
    ensures CheckCode(code).None? <==> ValidateCodeContent(Str(code)).Ok?
  {
  }

  /** The request model lower-cases without trimming, but the domain service
      trims and lower-cases again, so the hint that reaches a handler is the
      same as if the request model had passed it through unchanged. */
  lemma LanguageRulesCompose(language: Option<string>)
    ensures NormalizeLanguage(ValidateLanguage(language)) == NormalizeLanguage(language)
  {
    if language.Some? && HasVisible(language.value) {
      var v := language.value;
      StripLowerCommute(v);
      StripShape(Lower(v));
      LowerIsLower(Strip(v));
      LowerIsLower(Lower(Strip(v)));
      assert NormalizeLanguage(Some(Lower(v))).Some? ==> NormalizeLanguage(Some(Lower(v))).value == Lower(Strip(v));
      LowerPreservesVisible(v);
    }
  }

  /** Lower-casing keeps a visible character visible. */
  lemma LowerPreservesVisible(s: string)
    ensures HasVisible(Lower(s)) <==> HasVisible(s)
  {
    forall c | true ensures IsSpace(LowerChar(c)) <==> IsSpace(c) {
      LowerKeepsSpace(c);
    }
    if HasVisible(s) {
      var i :| 0 <= i < |s| && !IsSpace(s[i]);
      assert !IsSpace(Lower(s)[i]);
    }
    if HasVisible(Lower(s)) {
      var i :| 0 <= i < |Lower(s)| && !IsSpace(Lower(s)[i]);
      assert !IsSpace(s[i]);
    }
  }
}
