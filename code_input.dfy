/**
 The editor panel's policy: which highlighting language the editor uses for
 a dialect, how a highlighter is applied without ever losing the text, and
 how the submit button reflects the loading flag.
 */
module CodeInput {

  /** The editor's language for a dialect: MongoDB pipelines are JavaScript,
      DynamoDB requests are JSON, everything else is SQL. */
  function HighlightLanguage(dbSystem: string): (language: string)
    ensures language == "javascript" <==> dbSystem == "mongodb"
    ensures language == "json" <==> dbSystem == "dynamodb"
    ensures language == "sql" <==> dbSystem != "mongodb" && dbSystem != "dynamodb"
  {
    if dbSystem == "mongodb" then "javascript"
    else if dbSystem == "dynamodb" then "json"
    else "sql"
  }

  /** The mapping is total and its values are the three languages. */
  lemma LanguageIsOneOfThree(dbSystem: string)
    ensures HighlightLanguage(dbSystem) in ["javascript", "json", "sql"]
  {
  }

  /** The outcome of one call of the highlighter. */
  datatype Highlighted = Value(html: string) | Threw

  /** The global highlighting library as the editor finds it: absent, or
      present with its `getLanguage` and `highlight` (always called with
      illegal input ignored). */
  datatype Highlighter =
    | Missing
    | Loaded(getLanguage: string -> bool, highlight: (string, string) -> Highlighted)

  /** The highlighter is there and knows the language. */
  predicate CanHighlight(hljs: Highlighter, language: string) {
    hljs.Loaded? && hljs.getLanguage(language)
  }

  /** `highlightCode`: the highlighter's markup when it is present, knows the
      language and does not throw; the code itself otherwise. */
  function HighlightCode(hljs: Highlighter, language: string, code: string): (html: string)
    ensures !CanHighlight(hljs, language) ==> html == code
    ensures CanHighlight(hljs, language) && hljs.highlight(code, language).Threw? ==> html == code
    ensures CanHighlight(hljs, language) && hljs.highlight(code, language).Value? ==>
              html == hljs.highlight(code, language).html
  {
    if CanHighlight(hljs, language) then
      match hljs.highlight(code, language)
      case Value(value) => value
      case Threw => code
    else
      code
  }

  /** The text is never lost: the editor shows either the code unchanged or
      exactly what a successful highlighting call returned for it. */
  lemma NeverLosesText(hljs: Highlighter, language: string, code: string)
    ensures var html := HighlightCode(hljs, language, code);
            || html == code
            || (CanHighlight(hljs, language) && hljs.highlight(code, language) == Value(html))
  {
  }

  /** The submit button: whether it can be pressed, and its caption. */
  datatype SubmitButton = SubmitButton(disabled: bool, caption: string, spinner: bool)

  function SubmitButtonFor(isLoading: bool): (b: SubmitButton)
    ensures b.disabled <==> isLoading
    ensures b.caption == "Optimizing..." <==> isLoading
    ensures b.caption == "Optimize Query" <==> !isLoading
    ensures b.spinner <==> isLoading
  {
    if isLoading then SubmitButton(true, "Optimizing...", true)
    else SubmitButton(false, "Optimize Query", false)
  }
}
