/** The project form's submission (`src/components/ProjectForm.tsx`). */
module ProjectForm {
  import opened Types
  import Text

  /** `handleSubmit` on the fields `name`, `description` and `thumbnailUrl`
      (`""` when no thumbnail is set): nothing is saved while the name is blank;
      otherwise the name and the description are saved trimmed, the description
      always present, and the thumbnail only when set, verbatim. */
  function Submission(name: string, description: string, thumbnailUrl: string): (r: Option<ProjectDraft>)
    ensures r.None? <==> Text.IsBlank(name)
    ensures r.Some? ==> r.value.name == Text.Trim(name) && r.value.name != ""
    ensures r.Some? ==> r.value.description == Text.Trim(description)
    ensures r.Some? ==> (r.value.thumbnailUrl.None? <==> thumbnailUrl == "")
                        && (thumbnailUrl != "" ==> r.value.thumbnailUrl == Some(thumbnailUrl))
  {
    if Text.Trim(name) == "" then None
    else Some(ProjectDraft(Text.Trim(name), Text.Trim(description),
                           if thumbnailUrl == "" then None else Some(thumbnailUrl)))
  }
}
