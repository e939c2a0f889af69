/**
 * The guard and progress logic of `generate_slides`. The foreign calls (file upload,
 * token counting, content generation, rendering) are inputs: what each returned in
 * this run. Generation then is a function that yields the progress messages it
 * hands to its status callback, in order, and its outcome. A callback that raises
 * stops generation at that point; the handler that owns the callback models that.
 */
module Slides {
  import opened Common
  import Markdown

  /** Largest accepted input, in model tokens (`total_tokens > 16384` is refused). */
  const MaxTokens: int := 16384

  const Analyzing: string := "Analyzing your uploaded files..."
  const Designing: string := "Designing your presentation..."
  const Preparing: string := "Preparing the slide content..."
  const Finalizing: string := "Finalizing your slides..."
  const ProgressMessages: seq<string> := [Analyzing, Designing, Preparing, Finalizing]

  const TooLarge: string := "Documents are too large to process"
  const NoPresentation: string := "Failed to generate presentation."

  /** `models.task.File`: a downloaded input file. */
  datatype File = File(filename: string, data: seq<byte>, contentType: string)

  datatype Rendered = Rendered(pdf: seq<byte>, html: seq<byte>)

  /** What the foreign collaborators of one generation run return. */
  datatype Collaborators = Collaborators(
    upload: Outcome,           // uploading every input file to the model service
    tokenCount: Result<int>,   // counting the tokens of files and prompt
    response: Result<string>,  // generating content and taking the first candidate's text
    render: Result<Rendered>)  // rendering the extracted markdown for the theme

  /** The messages passed to the status callback, in order, and the outcome. */
  datatype Generation = Generation(progress: seq<string>, outcome: Result<Rendered>)

  predicate WithinBudget(tokens: int) {
    tokens <= MaxTokens
  }

  /** Both guards of `generate_slides` pass, and every collaborator before rendering succeeded. */
  predicate ReachesRendering(c: Collaborators) {
    && c.upload.Pass?
    && c.tokenCount.Success? && WithinBudget(c.tokenCount.value)
    && c.response.Success? && Markdown.Extract(c.response.value) != ""
  }

  /** `generate_slides`; `files` only reach the upload collaborator. */
  function GenerateSlides(files: seq<File>, c: Collaborators): (g: Generation)
    ensures 1 <= |g.progress| <= |ProgressMessages| && g.progress == ProgressMessages[..|g.progress|]
    ensures g.outcome.Success? ==> g.progress == ProgressMessages
  {
    if c.upload.Fail? then Generation([Analyzing], Failure(c.upload.error))
    else if c.tokenCount.Failure? then Generation(ProgressMessages[..3], Failure(c.tokenCount.error))
    else if !WithinBudget(c.tokenCount.value) then Generation(ProgressMessages[..3], Failure(TooLarge))
    else if c.response.Failure? then Generation(ProgressMessages[..3], Failure(c.response.error))
    else if Markdown.Extract(c.response.value) == "" then Generation(ProgressMessages[..3], Failure(NoPresentation))
    else Generation(ProgressMessages, c.render)
  }

  /** "Finalizing" is sent exactly when both guards passed, and rendering decides the outcome then. */
  lemma FinalizingOnlyAfterGuards(files: seq<File>, c: Collaborators)
    ensures Finalizing in GenerateSlides(files, c).progress <==> ReachesRendering(c)
    ensures ReachesRendering(c) ==> GenerateSlides(files, c).outcome == c.render
    ensures !ReachesRendering(c) ==> GenerateSlides(files, c).outcome.Failure?
  {
    var g := GenerateSlides(files, c);
    if !ReachesRendering(c) {
      assert Finalizing !in g.progress by {
        assert g.progress == [Analyzing] || g.progress == ProgressMessages[..3];
        assert ProgressMessages[..3] == [Analyzing, Designing, Preparing];
      }
    }
  }

  /** More than 16384 tokens is refused after the first three messages; exactly 16384 is accepted. */
  lemma TokenBudgetBoundary(files: seq<File>, c: Collaborators)
    requires c.upload.Pass? && c.tokenCount.Success?
    ensures c.tokenCount.value > MaxTokens ==>
              GenerateSlides(files, c) == Generation([Analyzing, Designing, Preparing], Failure(TooLarge))
    ensures c.tokenCount.value == MaxTokens && c.response.Success? && Markdown.Extract(c.response.value) != "" ==>
              GenerateSlides(files, c) == Generation(ProgressMessages, c.render)
  {
    assert ProgressMessages[..3] == [Analyzing, Designing, Preparing];
  }

  /** A response whose first two fence lines are adjacent yields no presentation, so generation fails. */
  lemma AdjacentFencesFailGeneration(files: seq<File>, c: Collaborators, s: nat)
    requires c.upload.Pass? && c.tokenCount.Success? && WithinBudget(c.tokenCount.value)
    requires c.response.Success?
    requires Markdown.FirstTwoFences(Markdown.SplitLines(c.response.value), s, s + 1)
    ensures GenerateSlides(files, c) == Generation([Analyzing, Designing, Preparing], Failure(NoPresentation))
  {
    Markdown.AdjacentFencesEmpty(c.response.value, s);
    assert ProgressMessages[..3] == [Analyzing, Designing, Preparing];
  }
}
