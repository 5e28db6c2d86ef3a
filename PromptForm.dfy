/** The prompt form (`src/components/PromptForm.tsx`): its tag list editing and
    the record it saves. */
module PromptForm {
  import opened Types
  import Text
  import Seqs

  /** No tag appears twice. */
  predicate NoDuplicates(tags: seq<string>) {
    forall i, j :: 0 <= i < j < |tags| ==> tags[i] != tags[j]
  }

  /** What typing `input` into the tag box contributes: trimmed, then lower-cased. */
  function NormalizeTag(input: string): (t: string)
    ensures t == Text.Lower(Text.Trim(input))
    ensures t == [] <==> Text.IsBlank(input)
    ensures t == [] || (!Text.IsSpace(t[0]) && !Text.IsSpace(t[|t| - 1]))
    ensures forall k :: 0 <= k < |t| ==> !('A' <= t[k] <= 'Z')
  {
    var trimmed := Text.Trim(input);
    Text.LowerKeepsSpaces(trimmed);
    Text.Lower(trimmed)
  }

  /** A normalised tag normalises to itself, so retyping a tag finds it already present. */
  lemma NormalizeTagIdempotent(input: string)
    ensures NormalizeTag(NormalizeTag(input)) == NormalizeTag(input)
  {
    var t := NormalizeTag(input);
    Text.TrimOfTrimmed(t);
    Text.LowerIdempotent(Text.Trim(input));
  }

  /** The tag list after `addTag` with `input` in the box: the old tags stay, in
      order, and the normalised input is appended exactly when it is non-empty
      and not there yet. */
  function WithTag(tags: seq<string>, input: string): (r: seq<string>)
    ensures |tags| <= |r| <= |tags| + 1 && r[..|tags|] == tags
    ensures |r| == |tags| + 1 <==> NormalizeTag(input) != "" && NormalizeTag(input) !in tags
    ensures |r| == |tags| + 1 ==> r[|tags|] == NormalizeTag(input)
    ensures NormalizeTag(input) != "" ==> NormalizeTag(input) in r
    ensures NoDuplicates(tags) ==> NoDuplicates(r)
  {
    var tag := NormalizeTag(input);
    if tag != "" && tag !in tags then tags + [tag] else tags
  }

  /** The tag list after `removeTag(t)`: every copy of `t` is gone, the other tags stay in order. */
  function WithoutTag(tags: seq<string>, t: string): (r: seq<string>)
    ensures forall x :: x in r <==> x in tags && x != t
    ensures forall x :: multiset(r)[x] == if x != t then multiset(tags)[x] else 0
    ensures Seqs.Subseq(r, tags)
    ensures t !in tags ==> r == tags
  {
    Seqs.Filter(tags, (x: string) => x != t)
  }

  /** `value || undefined`: the empty string stands for "absent". */
  function NonEmpty(s: string): (r: Option<string>)
    ensures r.None? <==> s == ""
    ensures r.Some? ==> r.value == s
  {
    if s == "" then None else Some(s)
  }

  /** `value || ''`. */
  function OrEmpty(s: Option<string>): string {
    match s
    case Some(v) => v
    case None => ""
  }

  /** The fields of the form. `imageUrl` and `projectId` are `""` when unset. */
  class PromptForm {
    var title: string
    var content: string
    var category: Category
    var tags: seq<string>
    var tagInput: string
    var imageUrl: string
    var projectId: string

    /** The form as it stands once mounted: editing `prompt` shows its fields
        (its project, or none: the mount effect overrides `currentProjectId`);
        a new prompt starts blank, as an image prompt, in `currentProjectId`. */
    constructor (prompt: Option<Prompt>, currentProjectId: Option<string>)
      ensures tagInput == ""
      ensures prompt.Some? ==>
        && title == prompt.value.title && content == prompt.value.content
        && category == prompt.value.category && tags == prompt.value.tags
        && imageUrl == OrEmpty(prompt.value.imageUrl) && projectId == OrEmpty(prompt.value.projectId)
      ensures prompt.None? ==>
        && title == "" && content == "" && category == Image && tags == []
        && imageUrl == "" && projectId == OrEmpty(currentProjectId)
    {
      tagInput := "";
      match prompt {
        case Some(p) =>
          title, content, category, tags := p.title, p.content, p.category, p.tags;
          imageUrl, projectId := OrEmpty(p.imageUrl), OrEmpty(p.projectId);
        case None =>
          title, content, category, tags := "", "", Image, [];
          imageUrl, projectId := "", OrEmpty(currentProjectId);
      }
    }

    /** `addTag`: adds the typed tag if it is new and clears the tag box. */
    method AddTag()
      modifies this
      ensures tags == WithTag(old(tags), old(tagInput)) && tagInput == ""
      ensures NoDuplicates(old(tags)) ==> NoDuplicates(tags)
      ensures title == old(title) && content == old(content) && category == old(category)
      ensures imageUrl == old(imageUrl) && projectId == old(projectId)
    {
      tags := WithTag(tags, tagInput);
      tagInput := "";
    }

    /** `removeTag`. */
    method RemoveTag(t: string)
      modifies this
      ensures tags == WithoutTag(old(tags), t) && t !in tags
      ensures tagInput == old(tagInput)
      ensures title == old(title) && content == old(content) && category == old(category)
      ensures imageUrl == old(imageUrl) && projectId == old(projectId)
    {
      tags := WithoutTag(tags, t);
    }

    /** `handleSubmit`: nothing is saved while the title or the content is blank;
        otherwise the saved draft has the trimmed (hence non-empty) title and
        content, the category and tags as they are, and the image and project
        only when set, verbatim. */
    function Submission(): (r: Option<PromptDraft>)
      reads this
      ensures r.None? <==> Text.IsBlank(title) || Text.IsBlank(content)
      ensures r.Some? ==> r.value.title == Text.Trim(title) && r.value.title != ""
      ensures r.Some? ==> r.value.content == Text.Trim(content) && r.value.content != ""
      ensures r.Some? ==> r.value.category == category && r.value.tags == tags
      ensures r.Some? ==> (r.value.imageUrl.None? <==> imageUrl == "")
                          && (imageUrl != "" ==> r.value.imageUrl == Some(imageUrl))
      ensures r.Some? ==> (r.value.projectId.None? <==> projectId == "")
                          && (projectId != "" ==> r.value.projectId == Some(projectId))
    {
      if Text.Trim(title) == "" || Text.Trim(content) == "" then None
      else Some(PromptDraft(Text.Trim(title), Text.Trim(content), category, tags,
                            NonEmpty(imageUrl), NonEmpty(projectId)))
    }
  }
}
