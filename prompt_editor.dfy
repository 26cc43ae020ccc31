/** The live preview of the prompt editor (client/src/components/prompt-editor.tsx). */
module PromptEditor {
  import opened Wrappers
  import opened Placeholders

  /** Number of description characters the preview keeps. */
  const PREVIEW_LENGTH: nat := 200
  const ELLIPSIS: string := "..."

  /** `description.substring(0, 200) + "..."`. */
  function PreviewDescription(description: string): (r: string)
    ensures |r| == (if |description| < PREVIEW_LENGTH then |description| else PREVIEW_LENGTH) + 3
    ensures r[..|r| - 3] == description[..|r| - 3] && r[|r| - 3..] == ELLIPSIS
  {
    var kept := if |description| < PREVIEW_LENGTH then description else description[..PREVIEW_LENGTH];
    kept + ELLIPSIS
  }

  /** The preview paragraph: shown only when a company is selected and the template is
      non-empty; the same three replacements as the server, in the same order, with a
      shortened description. */
  function Preview(template: string, company: Option<PromptFields>): (r: Option<string>)
    ensures r.Some? <==> company.Some? && template != ""
  {
    if company.Some? && template != "" then
      var c := company.value;
      Some(ReplaceAll(ReplaceAll(ReplaceAll(template, COMPANY_NAME, c.name),
                                 JOB_TITLE, c.jobTitle),
                      JOB_DESCRIPTION, PreviewDescription(c.jobDescription)))
    else None
  }

  /** The preview is the server's prompt for the same template with the description
      replaced by its shortened form. */
  lemma PreviewIsShortenedPrompt(template: string, company: PromptFields)
    requires template != ""
    ensures Preview(template, Some(company))
            == Some(ReplacePlaceholders(template,
                      company.(jobDescription := PreviewDescription(company.jobDescription))))
  {
  }

  /** The ellipsis is appended even when nothing was cut off. */
  lemma ShortDescriptionKeepsEllipsis(description: string)
    requires |description| <= PREVIEW_LENGTH
    ensures PreviewDescription(description) == description + ELLIPSIS
  {
    var r := PreviewDescription(description);
    assert r[..|description|] == description;
    assert r == r[..|description|] + r[|description|..];
  }

  /** A non-empty template without placeholders previews as itself. */
  lemma PreviewWithoutPlaceholders(template: string, company: PromptFields)
    requires template != ""
    requires !Contains(template, COMPANY_NAME)
    requires !Contains(template, JOB_TITLE)
    requires !Contains(template, JOB_DESCRIPTION)
    ensures Preview(template, Some(company)) == Some(template)
  {
    PreviewIsShortenedPrompt(template, company);
    NoPlaceholdersUnchanged(template,
      company.(jobDescription := PreviewDescription(company.jobDescription)));
  }

  /** Around brace-free text, the preview shows the shortened description where the
      prompt sent for generation has the full one. */
  lemma PreviewAndPromptDiffer(a: string, b: string, company: PromptFields)
    requires '{' !in a && '{' !in b
    ensures Preview(a + JOB_DESCRIPTION + b, Some(company))
            == Some(a + PreviewDescription(company.jobDescription) + b)
    ensures ReplacePlaceholders(a + JOB_DESCRIPTION + b, company)
            == a + company.jobDescription + b
  {
    var t := a + JOB_DESCRIPTION + b;
    assert |t| > 0;
    PreviewIsShortenedPrompt(t, company);
    DescriptionVerbatim(a, b, company.(jobDescription := PreviewDescription(company.jobDescription)));
    DescriptionVerbatim(a, b, company);
  }
}
