/**
 The result panel: from its three props it shows exactly one of four views,
 by a fixed precedence (loading, then error, then the analysis, then the
 placeholder).
 */
module FeedbackDisplay {

  import opened Nullable

  datatype View =
    | Loading                // the spinner and "analyzing" message
    | ErrorPanel(message: string)
    | Analysis(html: string) // injected as raw HTML
    | Placeholder            // "Analysis Will Appear Here"

  /** JavaScript truthiness of a `string | null`: both null and "" are falsy. */
  predicate Truthy(error: Option<string>) {
    error.Some? && error.value != ""
  }

  /** `renderContent`. */
  function RenderContent(feedback: string, isLoading: bool, error: Option<string>): (v: View)
    ensures v.Loading? <==> isLoading
    ensures v.ErrorPanel? <==> !isLoading && Truthy(error)
    ensures v.ErrorPanel? ==> v.message == error.value
    ensures v.Analysis? <==> !isLoading && !Truthy(error) && feedback != ""
    ensures v.Analysis? ==> v.html == feedback
    ensures v.Placeholder? <==> !isLoading && !Truthy(error) && feedback == ""
  {
    if isLoading then Loading
    else if Truthy(error) then ErrorPanel(error.value)
    else if feedback != "" then Analysis(feedback)
    else Placeholder
  }

  /** The views whose condition holds, in precedence order; the placeholder
      always applies. */
  function Applicable(feedback: string, isLoading: bool, error: Option<string>): (vs: seq<View>)
    ensures |vs| >= 1 && vs[|vs| - 1] == Placeholder
  {
    (if isLoading then [Loading] else [])
    + (if Truthy(error) then [ErrorPanel(error.value)] else [])
    + (if feedback != "" then [Analysis(feedback)] else [])
    + [Placeholder]
  }

  /** The panel shows the first applicable view in precedence order. */
  lemma RenderContentIsFirstApplicable(feedback: string, isLoading: bool, error: Option<string>)
    ensures RenderContent(feedback, isLoading, error) == Applicable(feedback, isLoading, error)[0]
  {
  }

  /** While loading, neither the error nor the feedback matters. */
  lemma LoadingHidesEverything(f1: string, f2: string, e1: Option<string>, e2: Option<string>)
    ensures RenderContent(f1, true, e1) == RenderContent(f2, true, e2) == Loading
  {
  }

  /** When not loading, a truthy error hides any feedback. */
  lemma ErrorHidesFeedback(f1: string, f2: string, error: Option<string>)
    requires Truthy(error)
    ensures RenderContent(f1, false, error) == RenderContent(f2, false, error) == ErrorPanel(error.value)
  {
  }
}
