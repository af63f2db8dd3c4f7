/**
 The interaction controller: the application's five pieces of state and the
 two handlers that change them, selecting a dialect and asking for an
 optimization.
 */
module App {

  import opened Nullable
  import opened JsText
  import Constants
  import GeminiService
  import FeedbackDisplay
  import CodeInput

  /** The dialect selected on first render. */
  const DefaultDbSystem: string := Constants.BigQuery

  /** Shown when the query is empty or only whitespace. */
  const ValidationMessage: string := "Please enter a query or code to optimize."

  /** Shown whenever the completion request fails, whatever the cause. */
  const RequestFailedMessage: string :=
    "An error occurred while optimizing the query. Please check your API key and try again."

  class Controller {
    var dbSystem: string
    var query: string
    var feedback: string      // the analysis as HTML, "" when there is none
    var isLoading: bool
    var error: Option<string>

    /** The state on first render: the default dialect with its example
        query, no analysis, not loading, no error. */
    constructor ()
      ensures dbSystem == DefaultDbSystem && query == Constants.ExampleCode[DefaultDbSystem]
      ensures feedback == "" && !isLoading && error == None
      ensures View() == FeedbackDisplay.Placeholder && !Button().disabled
      ensures EditorLanguage() == "sql"
    {
      dbSystem := DefaultDbSystem;
      query := Constants.ExampleCode[DefaultDbSystem];
      feedback := "";
      isLoading := false;
      error := None;
    }

    /** What the result panel shows for the current state. */
    function View(): FeedbackDisplay.View
      reads this
    {
      FeedbackDisplay.RenderContent(feedback, isLoading, error)
    }

    /** The submit button for the current state. */
    function Button(): CodeInput.SubmitButton
      reads this
    {
      CodeInput.SubmitButtonFor(isLoading)
    }

    /** The editor's highlighting language for the current dialect. */
    function EditorLanguage(): string
      reads this
    {
      CodeInput.HighlightLanguage(dbSystem)
    }

    /** `handleDbSystemChange`: switch dialect, load its example (or "" for
        an unknown identifier) and clear the previous result; the loading
        flag is left as it is. */
    method ChangeDbSystem(newDbSystem: string)
      modifies this
      ensures dbSystem == newDbSystem && query == Constants.ExampleFor(newDbSystem)
      ensures feedback == "" && error == None && isLoading == old(isLoading)
      ensures Constants.IsRegistered(newDbSystem) ==> query == Constants.ExampleCode[newDbSystem] && query != ""
      ensures !Constants.IsRegistered(newDbSystem) ==> query == ""
      ensures !isLoading ==> View() == FeedbackDisplay.Placeholder
      ensures EditorLanguage() == CodeInput.HighlightLanguage(newDbSystem)
    {
      dbSystem := newDbSystem;
      query := Constants.ExampleFor(newDbSystem);
      feedback := "";
      error := None;
      Constants.ExampleForRegistered(newDbSystem);
    }

    /** The editor's `onValueChange`: the query becomes the edited text. */
    method EditQuery(code: string)
      modifies this`query
      ensures query == code
    {
      query := code;
    }

    /** The first two phases of `handleOptimize`. A blank query only sets the
        validation error and stops; otherwise the controller enters loading,
        with the previous error and analysis cleared. */
    method BeginOptimize() returns (proceed: bool)
      modifies this
      ensures proceed <==> !IsBlank(old(query))
      ensures query == old(query) && dbSystem == old(dbSystem)
      ensures !proceed ==> error == Some(ValidationMessage) && feedback == old(feedback) && isLoading == old(isLoading)
      ensures !proceed && !isLoading ==> View() == FeedbackDisplay.ErrorPanel(ValidationMessage)
      ensures proceed ==> isLoading && error == None && feedback == ""
      ensures proceed ==> View() == FeedbackDisplay.Loading && Button().disabled
    {
      var blank := TrimsToEmpty(query);
      if blank {
        error := Some(ValidationMessage);
        return false;
      }
      isLoading := true;
      error := None;
      feedback := "";
      return true;
    }

    /** The last phase of `handleOptimize`: on success the analysis is the
        converter's HTML for the response, on failure the error is the fixed
        message; either way loading ends. */
    method FinishOptimize(result: GeminiService.Result, parse: string -> string)
      modifies this
      ensures !isLoading && query == old(query) && dbSystem == old(dbSystem)
      ensures result.Ok? ==> feedback == parse(result.text) && error == old(error)
      ensures result.Err? ==> error == Some(RequestFailedMessage) && feedback == old(feedback)
      ensures result.Err? ==> View() == FeedbackDisplay.ErrorPanel(RequestFailedMessage)
    {
      match result {
        case Ok(text) =>
          feedback := parse(text);
        case Err(_) =>
          error := Some(RequestFailedMessage);
      }
      isLoading := false;
    }

    /** `handleOptimize` run to completion against a remote model `remote`
        (model name and prompt to outcome) and a Markdown converter `parse`.
        `request` is the prompt sent, or None when no call is made. */
    method Optimize(remote: (string, string) -> GeminiService.CallOutcome, parse: string -> string)
      returns (request: Option<string>)
      modifies this
      ensures request.None? <==> IsBlank(old(query))
      ensures query == old(query) && dbSystem == old(dbSystem)
      ensures request.None? ==>
                error == Some(ValidationMessage) && feedback == old(feedback) && isLoading == old(isLoading)
      ensures request.Some? ==> request.value == GeminiService.BuildPrompt(query, dbSystem) && !isLoading
      ensures request.Some? ==>
                match remote(GeminiService.Model, request.value)
                case Responded(text) => feedback == parse(text) && error == None
                case Threw => feedback == "" && error == Some(RequestFailedMessage)
      ensures request.Some? && (forall text :: parse(text) != "") ==> (feedback != "" <==> error == None)
      ensures request.Some? ==>
                View() == match remote(GeminiService.Model, request.value)
                          case Responded(text) =>
                            if parse(text) == "" then FeedbackDisplay.Placeholder else FeedbackDisplay.Analysis(parse(text))
                          case Threw => FeedbackDisplay.ErrorPanel(RequestFailedMessage)
    {
      var proceed := BeginOptimize();
      if !proceed {
        return None;
      }
      var prompt := GeminiService.BuildPrompt(query, dbSystem);
      var result := GeminiService.OptimizeQuery(query, dbSystem, remote);
      FinishOptimize(result, parse);
      return Some(prompt);
    }
  }
}
