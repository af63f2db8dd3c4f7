/**
 The completion service: the instruction prompt built from a query and its
 dialect, and the wrapper that sends it to the hosted model and collapses
 every failure of that call into one error.
 */
module GeminiService {

  import opened JsText

  /** The model the request names. */
  const Model: string := "gemini-2.5-flash"

  /** The prose of the prompt: the long passages of fixed text that sit
      between the interpolations and the section headers. Everything proved
      about the template holds whatever these passages say. */
  datatype Prose = Prose(
    role: string,         // the role sentence, up to "for the following "
    task: string,         // the core task, after " query or code."
    guidance: string,     // the guidance by database type
    formatIntro: string,  // the lead-in to the output contract
    summary: string,      // the rule under each of the four headers
    issues: string,
    optimized: string,
    explanation: string)  // the last rule, with the closing instructions

  /** The prose `optimizeQuery` sends, character for character. */
  const PromptProse: Prose := Prose(
      "\nYou are an expert Senior Database "
      + "Administrator and Architect. Your "
      + "task is to provide a concise, "
      + "actionable optimization review ",
      "\n\n---\n**Core Task:**\nAnalyze "
      + "the provided code for performance "
      + "bottlenecks, anti-patterns, and "
      + "platform-specific "
      + "optimizations.\n\n---\n",
      "**Guidance by Database Type:**\n"
      + "*   **Data Warehouses (BigQuery, "
      + "Snowflake, Redshift, Azure "
      + "Synapse)**: Focus on partitioning, "
      + "clustering, distribution/sort keys. "
      + "Identify expensive joins and data "
      + "shuffling.\n"
      + "*   **Relational (MySQL, "
      + "PostgreSQL)**: Focus on indexing "
      + "(B-Tree, Trigram), inefficient "
      + "joins, and N+1 problems.\n"
      + "*   **MongoDB**: Analyze "
      + "aggregation pipelines and recommend "
      + "optimal indexes (compound, covered "
      + "queries).\n"
      + "*   **DynamoDB**: Advise against "
      + "`Scan` operations. Recommend "
      + "`Query` operations with optimal "
      + "keys and indexes (GSIs/LSIs).\n",
      "\n---\n**Your Output Must Be "
      + "Concise and Follow This Exact "
      + "Format:**\n",
      "A one-sentence overview of the "
      + "primary issue and the proposed fix.",
      "A **concise** bulleted list of "
      + "specific problems found.",
      "The rewritten, optimized version of "
      + "the code or a description of the "
      + "optimal access pattern. If "
      + "providing code, use a markdown code "
      + "block.",
      "A **concise**, bulleted list "
      + "explaining *why* each change "
      + "improves performance. **You must "
      + "wrap all SQL keywords, table/column "
      + "names, and code identifiers in "
      + "backticks (`)**. For example: \"The "
      + "`JOIN` was changed to use the "
      + "indexed `user_id` column.\"\n\n"
      + "Provide your entire response in "
      + "GitHub-flavored Markdown. Be direct "
      + "and to the point.")

  const SummaryHeader: string := "### Summary"
  const IssuesHeader: string := "### Identified Issues"
  const OptimizedHeader: string := "### Optimized Code/Query"
  const ExplanationHeader: string := "### Explanation of Changes"

  const ClosingLead: string := "Here is the code to optimize for "

  /** The line that opens the fenced block, and the two lines that close it. */
  const OpenFence: string := "```\n"
  const CloseFence: string := "\n```\n"

  /** The text before the first interpolation of the dialect. */
  function Opening(t: Prose): string {
    t.role + "for the following "
  }

  /** The text between the first interpolation of the dialect and the guidance. */
  function CoreTask(t: Prose): string {
    " query or code." + t.task
  }

  /** A Markdown header on a line of its own. */
  function HeaderLine(header: string): string {
    "\n" + header + "\n"
  }

  /** One section of the output contract: its header line, then its rule. */
  function Section(header: string, rule: string): string {
    HeaderLine(header) + rule + "\n"
  }

  /** The output contract: four sections, headers in their fixed order. */
  function OutputFormat(t: Prose): string {
    t.formatIntro
    + Section(SummaryHeader, t.summary)
    + Section(IssuesHeader, t.issues)
    + Section(OptimizedHeader, t.optimized)
    + Section(ExplanationHeader, t.explanation)
    + "\n"
  }

  /** The closing sentence, naming the dialect again. */
  function ClosingLine(dbSystem: string): string {
    ClosingLead + dbSystem + ":\n"
  }

  /** The fenced block that ends the prompt: the query, unescaped. */
  function FencedQuery(query: string): string {
    OpenFence + query + CloseFence
  }

  /** Everything before the fenced query. */
  function Instructions(t: Prose, dbSystem: string): string {
    Opening(t) + dbSystem + CoreTask(t) + t.guidance + OutputFormat(t) + ClosingLine(dbSystem)
  }

  /** The template with prose `t` filled in. */
  function Render(t: Prose, query: string, dbSystem: string): string {
    Instructions(t, dbSystem) + FencedQuery(query)
  }

  /** The template literal of `optimizeQuery`: a function of the query and
      the dialect identifier alone. */
  function BuildPrompt(query: string, dbSystem: string): string {
    Render(PromptProse, query, dbSystem)
  }

  // The properties below hold for the template filled with ANY prose `t`;
  // `BuildPrompt` is the case `t == PromptProse`.

  /** The prompt ends with the closing line naming the dialect, then the
      query, verbatim and unescaped, between a line "```" and a last line
      "```". */
  lemma {:induction false} QueryFencedAtEnd(t: Prose, query: string, dbSystem: string)
    ensures EndsWith(Render(t, query, dbSystem), ClosingLine(dbSystem) + OpenFence + query + CloseFence)
  {
    EndsWithLastTwo(Opening(t) + dbSystem + CoreTask(t) + t.guidance + OutputFormat(t),
                    ClosingLine(dbSystem), FencedQuery(query));
    assert ClosingLine(dbSystem) + FencedQuery(query) == ClosingLine(dbSystem) + OpenFence + query + CloseFence;
  }

  /** The closing line names the dialect right after its lead-in. */
  lemma ClosingLineNamesDialect(dbSystem: string)
    ensures OccursAt(ClosingLine(dbSystem), dbSystem, |ClosingLead|)
  {
    OccursAtEnd(ClosingLead, dbSystem);
    OccursExtendRight(ClosingLead + dbSystem, ":\n", dbSystem, |ClosingLead|);
  }

  /** Equal concatenations with equal left parts have equal right parts. */
  lemma CancelLeft(h: string, a: string, b: string)
    requires h + a == h + b
    ensures a == b
  {
    assert a == (h + a)[|h|..];
    assert b == (h + b)[|h|..];
  }

  /** Equal concatenations with equal right parts have equal left parts. */
  lemma CancelRight(a: string, b: string, h: string)
    requires a + h == b + h
    ensures a == b
  {
    assert a == (a + h)[..|a|];
    assert b == (b + h)[..|b|];
  }

  /** For a fixed prose and dialect the prompt determines the query: it can
      be read back from the fenced block. */
  lemma {:induction false} PromptDeterminesQuery(t: Prose, q1: string, q2: string, dbSystem: string)
    requires Render(t, q1, dbSystem) == Render(t, q2, dbSystem)
    ensures q1 == q2
  {
    CancelLeft(Instructions(t, dbSystem), FencedQuery(q1), FencedQuery(q2));
    CancelRight(OpenFence + q1, OpenFence + q2, CloseFence);
    CancelLeft(OpenFence, q1, q2);
  }

  /** Occurrences in the first three parts survive the rest of the prompt. */
  lemma InRenderedOpening(t: Prose, query: string, dbSystem: string, sub: string, i: int)
    requires OccursAt(Opening(t) + dbSystem + CoreTask(t), sub, i)
    ensures OccursAt(Render(t, query, dbSystem), sub, i)
  {
    var c := Opening(t) + dbSystem + CoreTask(t);
    OccursExtendRight(c, t.guidance, sub, i);
    OccursExtendRight(c + t.guidance, OutputFormat(t), sub, i);
    OccursExtendRight(c + t.guidance + OutputFormat(t), ClosingLine(dbSystem), sub, i);
    OccursExtendRight(Instructions(t, dbSystem), FencedQuery(query), sub, i);
  }

  /** The preamble sentence reads "... for the following ", the dialect,
      " query or code.". */
  lemma {:induction false} DialectInPreamble(t: Prose, query: string, dbSystem: string)
    ensures var p := Render(t, query, dbSystem);
            && OccursAt(p, "for the following ", |t.role|)
            && OccursAt(p, dbSystem, |t.role| + 18)
            && OccursAt(p, " query or code.", |t.role| + 18 + |dbSystem|)
  {
    LeadInRendered(t, query, dbSystem);
    DialectRendered(t, query, dbSystem);
    SentenceEndRendered(t, query, dbSystem);
  }

  lemma LeadInRendered(t: Prose, query: string, dbSystem: string)
    ensures OccursAt(Render(t, query, dbSystem), "for the following ", |t.role|)
  {
    OpeningEndsWithLead(t, dbSystem);
    InRenderedOpening(t, query, dbSystem, "for the following ", |t.role|);
  }

  lemma DialectRendered(t: Prose, query: string, dbSystem: string)
    ensures OccursAt(Render(t, query, dbSystem), dbSystem, |Opening(t)|)
  {
    OccursAtEnd(Opening(t), dbSystem);
    OccursExtendRight(Opening(t) + dbSystem, CoreTask(t), dbSystem, |Opening(t)|);
    InRenderedOpening(t, query, dbSystem, dbSystem, |Opening(t)|);
  }

  lemma SentenceEndRendered(t: Prose, query: string, dbSystem: string)
    ensures OccursAt(Render(t, query, dbSystem), " query or code.", |Opening(t) + dbSystem|)
  {
    CoreTaskStartsTheSentenceEnd(t, Opening(t) + dbSystem);
    InRenderedOpening(t, query, dbSystem, " query or code.", |Opening(t) + dbSystem|);
  }

  lemma OpeningEndsWithLead(t: Prose, dbSystem: string)
    ensures OccursAt(Opening(t) + dbSystem + CoreTask(t), "for the following ", |t.role|)
  {
    OccursAtEnd(t.role, "for the following ");
    OccursExtendRight(Opening(t), dbSystem, "for the following ", |t.role|);
    OccursExtendRight(Opening(t) + dbSystem, CoreTask(t), "for the following ", |t.role|);
  }

  lemma CoreTaskStartsTheSentenceEnd(t: Prose, b: string)
    ensures OccursAt(b + CoreTask(t), " query or code.", |b|)
  {
    OccursAtStart(" query or code.", t.task);
    OccursExtendLeft(b, CoreTask(t), " query or code.", 0);
  }

  /** The guidance block is always present, unchanged, right after the core
      task, whatever the dialect and the query. */
  lemma {:induction false} GuidanceAlwaysIncluded(t: Prose, query: string, dbSystem: string)
    ensures OccursAt(Render(t, query, dbSystem), t.guidance,
                     |t.role| + 18 + |dbSystem| + 15 + |t.task|)
  {
    var before := Opening(t) + dbSystem + CoreTask(t);
    OccursAtEnd(before, t.guidance);
    OccursExtendRight(before + t.guidance, OutputFormat(t), t.guidance, |before|);
    OccursExtendRight(before + t.guidance + OutputFormat(t), ClosingLine(dbSystem), t.guidance, |before|);
    OccursExtendRight(Instructions(t, dbSystem), FencedQuery(query), t.guidance, |before|);
  }

  /** A section starts with its header line. */
  lemma HeaderStartsSection(header: string, rule: string)
    ensures OccursAt(Section(header, rule), HeaderLine(header), 0)
  {
    OccursAtStart(HeaderLine(header), rule);
    OccursExtendRight(HeaderLine(header) + rule, "\n", HeaderLine(header), 0);
  }

  /** What occurs in the output contract occurs in the prompt, shifted by the
      text before the contract. */
  lemma InRenderedFormat(t: Prose, query: string, dbSystem: string, sub: string, o: int)
    requires OccursAt(OutputFormat(t), sub, o)
    ensures OccursAt(Render(t, query, dbSystem), sub, |Opening(t) + dbSystem + CoreTask(t) + t.guidance| + o)
  {
    var before := Opening(t) + dbSystem + CoreTask(t) + t.guidance;
    OccursExtendLeft(before, OutputFormat(t), sub, o);
    OccursExtendRight(before + OutputFormat(t), ClosingLine(dbSystem), sub, |before| + o);
    OccursExtendRight(Instructions(t, dbSystem), FencedQuery(query), sub, |before| + o);
  }

  /** The k-th section of the output contract, counting from 1. */
  function SectionNo(t: Prose, k: nat): string
    requires 1 <= k <= 4
  {
    if k == 1 then Section(SummaryHeader, t.summary)
    else if k == 2 then Section(IssuesHeader, t.issues)
    else if k == 3 then Section(OptimizedHeader, t.optimized)
    else Section(ExplanationHeader, t.explanation)
  }

  /** The output contract cut after its k-th section. */
  function FormatUpTo(t: Prose, k: nat): string
    requires k <= 4
  {
    if k == 0 then t.formatIntro else FormatUpTo(t, k - 1) + SectionNo(t, k)
  }

  /** The output contract is its four sections and a last newline. */
  lemma FormatIsCuts(t: Prose)
    ensures OutputFormat(t) == FormatUpTo(t, 4) + "\n"
  {
    assert FormatUpTo(t, 1) == t.formatIntro + Section(SummaryHeader, t.summary);
    assert FormatUpTo(t, 2) == FormatUpTo(t, 1) + Section(IssuesHeader, t.issues);
    assert FormatUpTo(t, 3) == FormatUpTo(t, 2) + Section(OptimizedHeader, t.optimized);
    assert FormatUpTo(t, 4) == FormatUpTo(t, 3) + Section(ExplanationHeader, t.explanation);
  }

  /** An occurrence in a cut of the contract is one in the whole contract. */
  lemma InFormatFromCut(t: Prose, k: nat, sub: string, i: int)
    requires k <= 4 && OccursAt(FormatUpTo(t, k), sub, i)
    ensures OccursAt(OutputFormat(t), sub, i)
    decreases 4 - k
  {
    if k < 4 {
      OccursExtendRight(FormatUpTo(t, k), SectionNo(t, k + 1), sub, i);
      InFormatFromCut(t, k + 1, sub, i);
    } else {
      FormatIsCuts(t);
      OccursExtendRight(FormatUpTo(t, 4), "\n", sub, i);
    }
  }

  /** The header of the k-th section opens a line right after the cut before
      it. */
  lemma HeaderAfterCut(t: Prose, k: nat, header: string, rule: string)
    requires 1 <= k <= 4 && SectionNo(t, k) == Section(header, rule)
    ensures OccursAt(OutputFormat(t), HeaderLine(header), |FormatUpTo(t, k - 1)|)
  {
    HeaderStartsSection(header, rule);
    OccursExtendLeft(FormatUpTo(t, k - 1), Section(header, rule), HeaderLine(header), 0);
    InFormatFromCut(t, k, HeaderLine(header), |FormatUpTo(t, k - 1)|);
  }

  /** In every prompt the four section headers occur, each on a line of its
      own, in the order Summary, Identified Issues, Optimized Code/Query,
      Explanation of Changes. */
  lemma {:induction false} HeadersInOrder(t: Prose, query: string, dbSystem: string)
    ensures exists i, j, k, l ::
      && 0 <= i < j < k < l
      && OccursAt(Render(t, query, dbSystem), HeaderLine(SummaryHeader), i)
      && OccursAt(Render(t, query, dbSystem), HeaderLine(IssuesHeader), j)
      && OccursAt(Render(t, query, dbSystem), HeaderLine(OptimizedHeader), k)
      && OccursAt(Render(t, query, dbSystem), HeaderLine(ExplanationHeader), l)
  {
    var base := |Opening(t) + dbSystem + CoreTask(t) + t.guidance|;
    HeaderAfterCut(t, 1, SummaryHeader, t.summary);
    HeaderAfterCut(t, 2, IssuesHeader, t.issues);
    HeaderAfterCut(t, 3, OptimizedHeader, t.optimized);
    HeaderAfterCut(t, 4, ExplanationHeader, t.explanation);
    InRenderedFormat(t, query, dbSystem, HeaderLine(SummaryHeader), |FormatUpTo(t, 0)|);
    InRenderedFormat(t, query, dbSystem, HeaderLine(IssuesHeader), |FormatUpTo(t, 1)|);
    InRenderedFormat(t, query, dbSystem, HeaderLine(OptimizedHeader), |FormatUpTo(t, 2)|);
    InRenderedFormat(t, query, dbSystem, HeaderLine(ExplanationHeader), |FormatUpTo(t, 3)|);
    assert base + |FormatUpTo(t, 0)| < base + |FormatUpTo(t, 1)| < base + |FormatUpTo(t, 2)| < base + |FormatUpTo(t, 3)|;
  }

  /** The properties above for the prompt the service actually sends: the
      dialect in the preamble, the guidance block and the fenced query at the
      end. */
  lemma {:induction false} BuildPromptShape(query: string, dbSystem: string)
    ensures EndsWith(BuildPrompt(query, dbSystem), ClosingLine(dbSystem) + OpenFence + query + CloseFence)
    ensures OccursAt(BuildPrompt(query, dbSystem), dbSystem, |PromptProse.role| + 18)
    ensures OccursAt(BuildPrompt(query, dbSystem), PromptProse.guidance,
                     |PromptProse.role| + 18 + |dbSystem| + 15 + |PromptProse.task|)
  {
    QueryFencedAtEnd(PromptProse, query, dbSystem);
    DialectInPreamble(PromptProse, query, dbSystem);
    GuidanceAlwaysIncluded(PromptProse, query, dbSystem);
  }

  /** The prompt the service actually sends carries the four section headers,
      each on its own line, in order. */
  lemma {:induction false} BuildPromptHeadersInOrder(query: string, dbSystem: string)
    ensures exists i, j, k, l ::
      && 0 <= i < j < k < l
      && OccursAt(BuildPrompt(query, dbSystem), HeaderLine(SummaryHeader), i)
      && OccursAt(BuildPrompt(query, dbSystem), HeaderLine(IssuesHeader), j)
      && OccursAt(BuildPrompt(query, dbSystem), HeaderLine(OptimizedHeader), k)
      && OccursAt(BuildPrompt(query, dbSystem), HeaderLine(ExplanationHeader), l)
  {
    assert BuildPrompt(query, dbSystem) == Render(PromptProse, query, dbSystem);
    HeadersInOrder(PromptProse, query, dbSystem);
  }

  /** For one dialect, distinct queries give distinct prompts. */
  lemma {:induction false} BuildPromptDeterminesQuery(q1: string, q2: string, dbSystem: string)
    requires BuildPrompt(q1, dbSystem) == BuildPrompt(q2, dbSystem)
    ensures q1 == q2
  {
    PromptDeterminesQuery(PromptProse, q1, q2, dbSystem);
  }

  /** What the remote `generateContent` call does: answers with text, or
      throws (transport, authentication or service failure alike). */
  datatype CallOutcome = Responded(text: string) | Threw

  /** What `optimizeQuery` resolves to or rejects with. */
  datatype Result = Ok(text: string) | Err(message: string)

  const FailureMessage: string := "Failed to get optimization from Gemini API."

  /** The try/catch around the call: the response text passes through
      unchanged and every failure becomes the one fixed error. */
  function Normalize(outcome: CallOutcome): (r: Result)
    ensures r.Ok? <==> outcome.Responded?
    ensures r.Ok? ==> r.text == outcome.text
    ensures r.Err? ==> r.message == FailureMessage
  {
    match outcome
    case Responded(text) => Ok(text)
    case Threw => Err(FailureMessage)
  }

  /** `optimizeQuery(query, dbSystem)`: builds the prompt, sends it with the
      model name to `remote`, and normalises what comes back. */
  method OptimizeQuery(query: string, dbSystem: string, remote: (string, string) -> CallOutcome)
    returns (r: Result)
    ensures r == Normalize(remote(Model, BuildPrompt(query, dbSystem)))
  {
    var prompt := BuildPrompt(query, dbSystem);
    var outcome := remote(Model, prompt);
    r := Normalize(outcome);
  }
}
