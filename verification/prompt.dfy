/**
 * The request handed to the generative model for one worst query
 * (`build_gemini_prompt` in main-app/src/main.py).
 *
 * Reading the prompt template and Python's `str.format` substitution are not
 * modelled: a successfully built prompt is the record of the nine values the
 * template receives; when the template cannot be read (or formatted) the
 * prompt falls back to a one-line request.
 */
module Prompt {
  import opened Wrappers
  import opened Text
  import Jobs

  /** The keyword arguments passed to `template.format`. */
  datatype Params = Params(
    billedGb: real,
    durationSeconds: int,
    slotHours: real,
    sourceType: string,
    difficulty: string,
    query: string,
    schemaInfo: string,
    antipatterns: string,
    dictionary: string)

  datatype PromptText = Templated(params: Params) | Fallback(text: string)

  const FallbackLead := "Analyze this SQL: "

  /** The template values: a missing figure is sent as zero. */
  function PromptParams(job: Jobs.Job, schemaInfo: string, antipatterns: string, dictionary: string): Params {
    Params(job.billedGb.GetOr(0.0), job.durationSeconds.GetOr(0), job.slotHours.GetOr(0.0),
           job.sourceType, job.difficulty, job.query, schemaInfo, antipatterns, dictionary)
  }

  function BuildPrompt(job: Jobs.Job, schemaInfo: string, antipatterns: string, dictionary: string, templateOk: bool): PromptText {
    if templateOk then Templated(PromptParams(job, schemaInfo, antipatterns, dictionary))
    else Fallback(FallbackLead + job.query)
  }

  /**
   * The figures the model is shown are the ones the job was ranked by: the
   * prompt's zero defaults agree with the ranking's treatment of missing values.
   */
  lemma PromptFiguresAreSortKeys(job: Jobs.Job, schemaInfo: string, antipatterns: string, dictionary: string)
    ensures PromptParams(job, schemaInfo, antipatterns, dictionary).billedGb == Jobs.Key(job, Jobs.BilledGb)
    ensures PromptParams(job, schemaInfo, antipatterns, dictionary).durationSeconds as real == Jobs.Key(job, Jobs.Duration)
  {
  }

  /**
   * Either way the query reaches the model: verbatim as a template value, or
   * at the end of the fallback request, after the fixed lead.
   */
  lemma QueryAlwaysSent(job: Jobs.Job, schemaInfo: string, antipatterns: string, dictionary: string, templateOk: bool)
    ensures var p := BuildPrompt(job, schemaInfo, antipatterns, dictionary, templateOk);
      match p
      case Templated(params) => params.query == job.query && params.schemaInfo == schemaInfo &&
                                params.antipatterns == antipatterns && params.dictionary == dictionary
      case Fallback(text) => StartsWith(text, FallbackLead) && text[|FallbackLead|..] == job.query
    ensures BuildPrompt(job, schemaInfo, antipatterns, dictionary, templateOk).Fallback? <==> !templateOk
  {
    if !templateOk {
      var text := FallbackLead + job.query;
      assert text[..|FallbackLead|] == FallbackLead;
    }
  }
}
