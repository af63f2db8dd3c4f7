# SQLean.fyi client, modelled in Dafny

SQLean.fyi is a single-page browser client. The user picks a database
dialect, writes or edits a query (or a MongoDB pipeline, or a DynamoDB
request), and asks for an optimization. The client then:

- fills a fixed prompt template with the query and the dialect;
- sends the prompt to the `gemini-2.5-flash` model;
- converts the Markdown answer to HTML;
- shows it in a result panel.

The result panel shows one of four views: a loading state, an error, the
analysis, or a placeholder.

This project models that client's logic:

- `nullable.dfy` (`Nullable`): `T | null` as an option type.
- `js_text.dfy` (`JsText`): the JavaScript string operations the client
  relies on.
  - `String.prototype.trim` with ECMAScript's exact whitespace and
    line-terminator set, which decides whether a query is blank.
  - Substring occurrence and `endsWith`, used to state where text sits
    inside a prompt.
- `constants.dfy` (`Constants`): the dialect registry `DATABASE_SYSTEMS` and
  the per-dialect example queries `EXAMPLE_CODE`. Both are kept
  character-for-character.
- `gemini_service.dfy` (`GeminiService`): the prompt template and the
  success/failure normalisation of the model call.
  - The template is `Render(t, query, dbSystem)` over a record `Prose` that
    holds its fixed prose passages. `BuildPrompt` is `Render` applied to
    the service's actual prose, `PromptProse`.
  - The structural lemmas hold for every `Prose`, so they are about the
    template's shape rather than its wording. `BuildPromptShape`,
    `BuildPromptHeadersInOrder` and `BuildPromptDeterminesQuery` instantiate
    them for the real prompt.
- `code_input.dfy` (`CodeInput`): the editor panel's rules.
  - The language used for highlighting.
  - The highlighting fallback that never loses the text.
  - The submit button's disabled state and caption.
- `feedback_display.dfy` (`FeedbackDisplay`): the result panel's choice of
  view.
- `app.dfy` (`App`): the controller, a class holding the five state cells
  that its two handlers update.
  - The asynchronous `handleOptimize` is split at its `await`.
    `BeginOptimize` covers validation and entering loading.
    `FinishOptimize` covers storing the result or the error and leaving
    loading.
  - `Optimize` composes the two halves for one run to completion.
  - The remote model and the Markdown converter are parameters.

The template has no dialect-keyed guidance. It always includes one fixed
guidance block that covers all dialects, and `dbSystem` is only interpolated
into the preamble and the closing line (services/geminiService.ts:13, 20-24,
43). `GuidanceAlwaysIncluded` states this.

## Model

| member | source | states |
|---|---|---|
| JsText.IsTrimmable | App.tsx:38 | the characters `trim` removes: ECMAScript WhiteSpace (tab, vertical tab, form feed, space, no-break space, the byte-order mark and the other space separators) and LineTerminator (line feed, carriage return, U+2028, U+2029) |
| JsText.BlankConcat | App.tsx:38 | a concatenation is blank exactly when both parts are, the step `trim`'s correctness rests on |
| JsText.TrimStart | App.tsx:38 | strips a blank prefix: the result is a suffix of the input, what was removed is all whitespace, and the result does not start with whitespace |
| JsText.TrimEnd | App.tsx:38 | strips a blank suffix: the result is a prefix of the input, what was removed is all whitespace, and the result does not end with whitespace |
| JsText.Trim | App.tsx:38 | `query.trim()` is empty if and only if every character of the query is trimmable whitespace; a non-empty result has non-whitespace ends |
| JsText.TrimsToEmpty | App.tsx:38 | `!query.trim()` holds exactly when the query is blank |
| Constants.Values | constants.ts:2-11 | the identifiers of the selector entries, position by position |
| Constants.ExampleFor | App.tsx:32 | `EXAMPLE_CODE[id] \|\| ''`: the map's example for a known key, "" for any other identifier |
| Constants.RegistryOrder | constants.ts:2-11 | the selector offers exactly bigquery, snowflake, redshift, azure, mysql, postgres, mongodb, dynamodb, in that order |
| Constants.RegistryDistinct | constants.ts:2-11 | no identifier is listed twice |
| Constants.ExampleKeysAreRegistry | constants.ts:13-120 | an identifier has an entry in the example map if and only if the selector offers it |
| Constants.ExampleNonEmpty | constants.ts:13-120 | every example in the map is non-empty |
| Constants.ExampleForRegistered | constants.ts:13-120 | every registered dialect has a non-empty example, and any other identifier yields "" |
| Constants.DefaultIsFirstEntry | App.tsx:24-25 | the default dialect `bigquery` is the selector's first entry and has an example |
| GeminiService.Render | services/geminiService.ts:12-47 | the template filled with a prose record, a query and a dialect: preamble naming the dialect, guidance, output format, closing line naming the dialect, fenced query |
| GeminiService.BuildPrompt | services/geminiService.ts:12-47 | the template filled with the service's own prose; the lemmas below state its shape |
| GeminiService.QueryFencedAtEnd | services/geminiService.ts:43-46 | every prompt ends with "Here is the code to optimize for <dialect>:" and then the query, verbatim, between a "```" line and a final "```" line |
| GeminiService.PromptDeterminesQuery | services/geminiService.ts:44-46 | for a fixed dialect, equal prompts come from equal queries: the query can be read back from the prompt |
| GeminiService.DialectInPreamble | services/geminiService.ts:13 | the preamble sentence reads "…for the following " + dialect + " query or code." at fixed offsets |
| GeminiService.GuidanceAlwaysIncluded | services/geminiService.ts:20-24 | the same guidance block occurs in every prompt, whatever the dialect and the query |
| GeminiService.HeadersInOrder | services/geminiService.ts:29-38 | the four headers "### Summary", "### Identified Issues", "### Optimized Code/Query" and "### Explanation of Changes" each occur on their own line, in that order, in every prompt |
| GeminiService.BuildPromptShape | services/geminiService.ts:12-47 | the prompt actually sent names the dialect in the preamble, always contains the guidance block, and ends with the fenced query |
| GeminiService.BuildPromptHeadersInOrder | services/geminiService.ts:29-38 | the prompt actually sent carries "### Summary", "### Identified Issues", "### Optimized Code/Query" and "### Explanation of Changes", each on its own line, in that order |
| GeminiService.BuildPromptDeterminesQuery | services/geminiService.ts:12-47 | for one dialect, distinct queries give distinct prompts |
| GeminiService.Normalize | services/geminiService.ts:49-58 | a response passes through with its text unchanged, and every failure becomes the one error "Failed to get optimization from Gemini API." |
| GeminiService.OptimizeQuery | services/geminiService.ts:9-58 | the result is the normalised outcome of calling the model `gemini-2.5-flash` with the built prompt |
| CodeInput.HighlightLanguage | components/CodeInput.tsx:17-26 | mongodb ↦ javascript, dynamodb ↦ json, and every other identifier ↦ sql, each in both directions |
| CodeInput.LanguageIsOneOfThree | components/CodeInput.tsx:17-26 | the mapping is total and yields one of the three languages |
| CodeInput.CanHighlight | components/CodeInput.tsx:41 | the highlighter is loaded and `getLanguage` accepts the language |
| CodeInput.HighlightCode | components/CodeInput.tsx:40-50 | the highlighter's markup when the library is loaded, knows the language and does not throw; the plain code in every other case |
| CodeInput.NeverLosesText | components/CodeInput.tsx:40-50 | the editor always shows either the code unchanged or exactly what a successful highlighting call returned for it |
| CodeInput.SubmitButtonFor | components/CodeInput.tsx:84-100 | the button is disabled, shows the spinner and reads "Optimizing..." exactly while loading; otherwise it reads "Optimize Query" |
| FeedbackDisplay.Truthy | components/FeedbackDisplay.tsx:21 | JavaScript truthiness of `error`: neither null nor "" |
| FeedbackDisplay.RenderContent | components/FeedbackDisplay.tsx:11-58 | loading exactly when `isLoading`; otherwise the error (with its message) exactly when the error is truthy; otherwise the analysis (the HTML itself) exactly when the feedback is non-empty; otherwise the placeholder |
| FeedbackDisplay.Applicable | components/FeedbackDisplay.tsx:47-57 | the placeholder is always applicable, as the last option |
| FeedbackDisplay.RenderContentIsFirstApplicable | components/FeedbackDisplay.tsx:11-58 | the panel shows the first applicable view in the order loading, error, analysis, placeholder |
| FeedbackDisplay.LoadingHidesEverything | components/FeedbackDisplay.tsx:12-19 | while loading, neither the feedback nor the error affects the view |
| FeedbackDisplay.ErrorHidesFeedback | components/FeedbackDisplay.tsx:21-33 | when not loading, a truthy error is shown whatever the feedback |
| App.Controller.constructor | App.tsx:24-28 | the initial state is bigquery with its example, no feedback, not loading and no error, so the placeholder shows, the button is enabled and the editor highlights SQL |
| App.Controller.View | App.tsx:89-94 | the result panel's view for the controller's `feedback`, `isLoading` and `error` props |
| App.Controller.Button | App.tsx:79-87 | the submit button for the controller's `isLoading` prop |
| App.Controller.EditorLanguage | components/CodeInput.tsx:38 | the editor's highlighting language for the controller's dialect |
| App.Controller.ChangeDbSystem | App.tsx:30-35 | sets the dialect and loads its example (non-empty for registered dialects, "" otherwise); clears feedback and error; leaves loading unchanged; when not loading, the placeholder shows; the editor language follows the new dialect |
| App.Controller.EditQuery | components/CodeInput.tsx:72 | the query becomes the edited text, and nothing else changes |
| App.Controller.BeginOptimize | App.tsx:38-44 | proceeds if and only if the query is not blank; a blank query only sets the validation message; otherwise loading starts with error and feedback cleared, so the spinner shows and the button is disabled |
| App.Controller.FinishOptimize | App.tsx:46-55 | on success, feedback is the converted response and the error is untouched; on failure, the error is the fixed API-key message and the feedback is untouched; loading ends either way |
| App.Controller.Optimize | App.tsx:37-56 | no request is made exactly for a blank query; otherwise the prompt built from the query and dialect is sent; on a response, feedback is its conversion and there is no error; on failure, there is no feedback and the fixed error is set; if the converter never yields "", exactly one of feedback and error is present; the resulting view is the analysis, the placeholder or the error panel accordingly |

## Left out

- The network call itself is out of scope. The `@google/genai` SDK and the
  model's answer are a parameter `remote` from model name and prompt to an
  outcome.
- The module-load check that `API_KEY` is set (services/geminiService.ts:3-5)
  and the client construction are left out. They are environment set-up that
  throws before the application runs.
- `response.text` being undefined is not modelled. A response is always
  modelled as text.
- The Markdown converter `marked.parse` is a parameter `parse`. That it might
  throw is not modelled. If it threw, the same catch would show the API-key
  message.
- The highlighting library is a parameter (`CodeInput.Highlighter`). Its
  grammars and the `ignoreIllegals` option it is always called with are not
  modelled.
- The effect that re-highlights the result panel after feedback changes
  (App.tsx:58-71) is left out. It uses `setTimeout` and the DOM, and it
  changes no state of the controller.
- The asynchronous interleaving is not modelled. `Optimize` runs begin and
  finish back to back. A dialect change or an edit while a request is in
  flight, and a late response arriving after it, are outside the model.
  `BeginOptimize` and `FinishOptimize` state what each half does on its own.
- JSX layout, CSS classes, icons, the header component and the selector's
  markup are left out. Only the choice of view and the button's state are
  modelled.
- Constants.ExampleFor: looking up prototype-chain keys such as "toString"
  would, in JavaScript, find a function rather than nothing. The model treats
  every identifier that is not a key as having no example.
- Strings are sequences of Unicode scalar values. JavaScript strings are
  UTF-16, so surrogate pairs are not modelled.
