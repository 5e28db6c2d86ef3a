/** The local prompt/project store (`src/hooks/useStorage.ts`): two ordered
    collections, replaced as a whole by every operation, and the browser's
    storage slot that receives a snapshot after every change. */
module Storage {
  import opened Types
  import Seqs

  /** The schema version every snapshot and export carries. */
  const Version: string := "1.0.0"

  /** The state the store holds. */
  datatype StorageState = StorageState(prompts: seq<Prompt>, projects: seq<Project>)

  /** The state the store starts from, given what the storage slot holds
      (`None` when the slot is missing or empty). */
  function InitialState(stored: Option<Payload>): (s: StorageState)
    ensures stored.None? || stored == Some(Unparsable) ==> s == StorageState([], [])
    ensures stored.Some? && stored.value.Parsed? ==>
      && (stored.value.prompts.Some? ==> s.prompts == stored.value.prompts.value)
      && (stored.value.prompts.None? ==> s.prompts == [])
      && (stored.value.projects.Some? ==> s.projects == stored.value.projects.value)
      && (stored.value.projects.None? ==> s.projects == [])
  {
    match stored
    case None => StorageState([], [])
    case Some(Unparsable) => StorageState([], [])
    case Some(Parsed(ps, prs, _, _)) =>
      StorageState(
        match ps case Some(v) => v case None => [],
        match prs case Some(v) => v case None => [])
  }

  /** The state an import installs, or `None` when the import must fail:
      the text does not parse, or a top-level `prompts` or `projects` is missing. */
  function ImportedState(text: Payload): (r: Option<StorageState>)
    ensures r.Some? <==> text.Parsed? && text.prompts.Some? && text.projects.Some?
    ensures r.Some? ==> r.value.prompts == text.prompts.value && r.value.projects == text.projects.value
  {
    match text
    case Parsed(Some(ps), Some(prs), _, _) => Some(StorageState(ps, prs))
    case _ => None
  }

  /** Exporting a document and importing it again gives back exactly its two collections. */
  lemma ExportImportRoundTrip(d: AppData)
    ensures ImportedState(Encode(d)) == Some(StorageState(d.prompts, d.projects))
  {
  }

  /** No two prompts share an id. */
  predicate UniquePromptIds(ps: seq<Prompt>) {
    forall i, j :: 0 <= i < j < |ps| ==> ps[i].id != ps[j].id
  }

  /** No two projects share an id. */
  predicate UniqueProjectIds(ps: seq<Project>) {
    forall i, j :: 0 <= i < j < |ps| ==> ps[i].id != ps[j].id
  }

  /** `{ ...draft, id, createdAt: now, updatedAt: now }`. */
  function NewPrompt(d: PromptDraft, id: string, now: string): (p: Prompt)
    ensures p.id == id && p.createdAt == now && p.updatedAt == now
    ensures p.title == d.title && p.content == d.content && p.category == d.category
    ensures p.tags == d.tags && p.imageUrl == d.imageUrl && p.projectId == d.projectId
  {
    Prompt(id, d.title, d.content, d.category, d.tags, d.imageUrl, d.projectId, now, now)
  }

  /** `{ ...draft, id, createdAt: now, updatedAt: now }`. */
  function NewProject(d: ProjectDraft, id: string, now: string): (p: Project)
    ensures p.id == id && p.createdAt == now && p.updatedAt == now
    ensures p.name == d.name && p.description == d.description && p.thumbnailUrl == d.thumbnailUrl
  {
    Project(id, d.name, d.description, d.thumbnailUrl, now, now)
  }

  function Patched<T>(prev: Option<T>, patch: Patch<T>): Option<T> {
    match patch
    case Keep => prev
    case Put(v) => v
  }

  function OrKeep<T>(prev: T, v: Option<T>): T {
    match v
    case Some(x) => x
    case None => prev
  }

  /** `{ ...p, ...u, updatedAt: now }`: the id and creation time stay, every
      field the update carries replaces the old one, the update time is `now`. */
  function MergePrompt(p: Prompt, u: PromptUpdate, now: string): (q: Prompt)
    ensures q.id == p.id && q.createdAt == p.createdAt && q.updatedAt == now
    ensures q.title == (if u.title.Some? then u.title.value else p.title)
    ensures q.content == (if u.content.Some? then u.content.value else p.content)
    ensures q.category == (if u.category.Some? then u.category.value else p.category)
    ensures q.tags == (if u.tags.Some? then u.tags.value else p.tags)
    ensures q.imageUrl == (if u.imageUrl.Put? then u.imageUrl.value else p.imageUrl)
    ensures q.projectId == (if u.projectId.Put? then u.projectId.value else p.projectId)
  {
    p.(title := OrKeep(p.title, u.title),
       content := OrKeep(p.content, u.content),
       category := OrKeep(p.category, u.category),
       tags := OrKeep(p.tags, u.tags),
       imageUrl := Patched(p.imageUrl, u.imageUrl),
       projectId := Patched(p.projectId, u.projectId),
       updatedAt := now)
  }

  /** `{ ...p, ...u, updatedAt: now }` for a project. */
  function MergeProject(p: Project, u: ProjectUpdate, now: string): (q: Project)
    ensures q.id == p.id && q.createdAt == p.createdAt && q.updatedAt == now
    ensures q.name == (if u.name.Some? then u.name.value else p.name)
    ensures q.description == (if u.description.Some? then u.description.value else p.description)
    ensures q.thumbnailUrl == (if u.thumbnailUrl.Put? then u.thumbnailUrl.value else p.thumbnailUrl)
  {
    p.(name := OrKeep(p.name, u.name),
       description := OrKeep(p.description, u.description),
       thumbnailUrl := Patched(p.thumbnailUrl, u.thumbnailUrl),
       updatedAt := now)
  }

  /** The prompt list after `updatePrompt(id, u)`: same length and order, every
      prompt keeps its id and creation time, those with another id are untouched
      and those with this id are merged with `u`. */
  function UpdatedPrompts(ps: seq<Prompt>, id: string, u: PromptUpdate, now: string): (r: seq<Prompt>)
    ensures |r| == |ps|
    ensures forall i :: 0 <= i < |ps| ==> r[i].id == ps[i].id && r[i].createdAt == ps[i].createdAt
    ensures forall i :: 0 <= i < |ps| && ps[i].id != id ==> r[i] == ps[i]
    ensures forall i :: 0 <= i < |ps| && ps[i].id == id ==> r[i] == MergePrompt(ps[i], u, now)
    ensures (forall i :: 0 <= i < |ps| ==> ps[i].id != id) ==> r == ps
  {
    Seqs.MapWhere(ps, (p: Prompt) => p.id == id, (p: Prompt) => MergePrompt(p, u, now))
  }

  /** The project list after `updateProject(id, u)`. */
  function UpdatedProjects(ps: seq<Project>, id: string, u: ProjectUpdate, now: string): (r: seq<Project>)
    ensures |r| == |ps|
    ensures forall i :: 0 <= i < |ps| ==> r[i].id == ps[i].id && r[i].createdAt == ps[i].createdAt
    ensures forall i :: 0 <= i < |ps| && ps[i].id != id ==> r[i] == ps[i]
    ensures forall i :: 0 <= i < |ps| && ps[i].id == id ==> r[i] == MergeProject(ps[i], u, now)
    ensures (forall i :: 0 <= i < |ps| ==> ps[i].id != id) ==> r == ps
  {
    Seqs.MapWhere(ps, (p: Project) => p.id == id, (p: Project) => MergeProject(p, u, now))
  }

  /** The prompt list without the prompts whose id is `id`, in the original order. */
  function WithoutPrompt(ps: seq<Prompt>, id: string): (r: seq<Prompt>)
    ensures forall p :: p in r <==> p in ps && p.id != id
    ensures forall p :: multiset(r)[p] == if p.id != id then multiset(ps)[p] else 0
    ensures Seqs.Subseq(r, ps)
    ensures (forall p :: p in ps ==> p.id != id) ==> r == ps
  {
    Seqs.Filter(ps, (p: Prompt) => p.id != id)
  }

  /** The project list without the projects whose id is `id`, in the original order. */
  function WithoutProject(ps: seq<Project>, id: string): (r: seq<Project>)
    ensures forall p :: p in r <==> p in ps && p.id != id
    ensures forall p :: multiset(r)[p] == if p.id != id then multiset(ps)[p] else 0
    ensures Seqs.Subseq(r, ps)
    ensures (forall p :: p in ps ==> p.id != id) ==> r == ps
  {
    Seqs.Filter(ps, (p: Project) => p.id != id)
  }

  /** Deleting a prompt keeps prompt ids unique. */
  lemma WithoutPromptKeepsIdsUnique(ps: seq<Prompt>, id: string)
    requires UniquePromptIds(ps)
    ensures UniquePromptIds(WithoutPrompt(ps, id))
  {
    var key := (p: Prompt) => p.id;
    assert Seqs.DistinctKeys(ps, key);
    Seqs.SubseqKeepsKeysDistinct(WithoutPrompt(ps, id), ps, key);
  }

  /** Deleting a project keeps project ids unique. */
  lemma WithoutProjectKeepsIdsUnique(ps: seq<Project>, id: string)
    requires UniqueProjectIds(ps)
    ensures UniqueProjectIds(WithoutProject(ps, id))
  {
    var key := (p: Project) => p.id;
    assert Seqs.DistinctKeys(ps, key);
    Seqs.SubseqKeepsKeysDistinct(WithoutProject(ps, id), ps, key);
  }

  /** Unlinking prompts from a project keeps prompt ids unique. */
  lemma UnlinkedKeepsIdsUnique(ps: seq<Prompt>, id: string)
    requires UniquePromptIds(ps)
    ensures UniquePromptIds(Unlinked(ps, id))
  {
  }

  /** The prompt list after project `id` is deleted: the same prompts in the same
      order, those that referenced `id` now referencing no project, no prompt
      referencing `id` any more. */
  function Unlinked(ps: seq<Prompt>, id: string): (r: seq<Prompt>)
    ensures |r| == |ps|
    ensures forall i :: 0 <= i < |r| ==> r[i].projectId != Some(id)
    ensures forall i :: 0 <= i < |ps| ==> r[i].id == ps[i].id
    ensures forall i :: 0 <= i < |ps| && ps[i].projectId != Some(id) ==> r[i] == ps[i]
    ensures forall i :: 0 <= i < |ps| && ps[i].projectId == Some(id) ==> r[i] == ps[i].(projectId := None)
  {
    Seqs.MapWhere(ps, (p: Prompt) => p.projectId == Some(id), (p: Prompt) => p.(projectId := None))
  }

  /** The store. Its fields are the two collections and the storage slot. */
  class Store {
    var prompts: seq<Prompt>
    var projects: seq<Project>
    /** The contents of the storage slot named `prompt-library-data`. */
    var slot: Option<Payload>

    /** The slot holds a snapshot of the current collections. */
    ghost predicate Valid()
      reads this
    {
      && slot.Some? && slot.value.Parsed?
      && slot.value.prompts == Some(prompts)
      && slot.value.projects == Some(projects)
      && slot.value.version == Some(Version)
    }

    /** The document the store writes to its slot and exports. */
    function Snapshot(now: string): (d: AppData)
      reads this
    {
      AppData(prompts, projects, Version, now)
    }

    /** Mounting the store: the state is read from what the slot holds, then a
        snapshot of it is written back. */
    constructor (stored: Option<Payload>, now: string)
      ensures Valid()
      ensures StorageState(prompts, projects) == InitialState(stored)
      ensures slot == Some(Encode(Snapshot(now)))
    {
      var s := InitialState(stored);
      prompts, projects := s.prompts, s.projects;
      slot := Some(Encode(AppData(s.prompts, s.projects, Version, now)));
    }

    /** `addPrompt`: the new prompt, with the id and time the caller supplies,
        goes in front of the list. */
    method AddPrompt(d: PromptDraft, id: string, now: string) returns (p: Prompt)
      requires Valid()
      modifies this
      ensures Valid() && slot == Some(Encode(Snapshot(now)))
      ensures p == NewPrompt(d, id, now)
      ensures prompts == [p] + old(prompts) && projects == old(projects)
      ensures UniquePromptIds(old(prompts)) && (forall q :: q in old(prompts) ==> q.id != id)
              ==> UniquePromptIds(prompts)
    {
      p := NewPrompt(d, id, now);
      prompts := [p] + prompts;
      slot := Some(Encode(Snapshot(now)));
    }

    /** `updatePrompt`. */
    method UpdatePrompt(id: string, u: PromptUpdate, now: string)
      requires Valid()
      modifies this
      ensures Valid() && slot == Some(Encode(Snapshot(now)))
      ensures prompts == UpdatedPrompts(old(prompts), id, u, now) && projects == old(projects)
      ensures UniquePromptIds(old(prompts)) ==> UniquePromptIds(prompts)
    {
      prompts := UpdatedPrompts(prompts, id, u, now);
      slot := Some(Encode(Snapshot(now)));
    }

    /** `deletePrompt`. */
    method DeletePrompt(id: string, now: string)
      requires Valid()
      modifies this
      ensures Valid() && slot == Some(Encode(Snapshot(now)))
      ensures prompts == WithoutPrompt(old(prompts), id) && projects == old(projects)
      ensures UniquePromptIds(old(prompts)) ==> UniquePromptIds(prompts)
    {
      if UniquePromptIds(prompts) {
        WithoutPromptKeepsIdsUnique(prompts, id);
      }
      prompts := WithoutPrompt(prompts, id);
      slot := Some(Encode(Snapshot(now)));
    }

    /** `addProject`: the new project goes in front of the list. */
    method AddProject(d: ProjectDraft, id: string, now: string) returns (p: Project)
      requires Valid()
      modifies this
      ensures Valid() && slot == Some(Encode(Snapshot(now)))
      ensures p == NewProject(d, id, now)
      ensures projects == [p] + old(projects) && prompts == old(prompts)
      ensures UniqueProjectIds(old(projects)) && (forall q :: q in old(projects) ==> q.id != id)
              ==> UniqueProjectIds(projects)
    {
      p := NewProject(d, id, now);
      projects := [p] + projects;
      slot := Some(Encode(Snapshot(now)));
    }

    /** `updateProject`. */
    method UpdateProject(id: string, u: ProjectUpdate, now: string)
      requires Valid()
      modifies this
      ensures Valid() && slot == Some(Encode(Snapshot(now)))
      ensures projects == UpdatedProjects(old(projects), id, u, now) && prompts == old(prompts)
      ensures UniqueProjectIds(old(projects)) ==> UniqueProjectIds(projects)
    {
      projects := UpdatedProjects(projects, id, u, now);
      slot := Some(Encode(Snapshot(now)));
    }

    /** `deleteProject`: the project goes, its prompts stay and become generic. */
    method DeleteProject(id: string, now: string)
      requires Valid()
      modifies this
      ensures Valid() && slot == Some(Encode(Snapshot(now)))
      ensures projects == WithoutProject(old(projects), id)
      ensures prompts == Unlinked(old(prompts), id)
      ensures PromptsForProject(id) == []
    {
      projects, prompts := WithoutProject(projects, id), Unlinked(prompts, id);
      slot := Some(Encode(Snapshot(now)));
      NoPromptsForUnlinked(this, id);
    }

    /** `exportData`: the current collections with the schema version and the
        export time; importing it restores exactly these collections. */
    function ExportData(now: string): (text: Payload)
      reads this
      ensures text.Parsed? && text.version == Some(Version) && text.exportedAt == Some(now)
      ensures ImportedState(text) == Some(StorageState(prompts, projects))
    {
      Encode(Snapshot(now))
    }

    /** `importData`: fails, leaving everything as it was, on text that does not
        parse or lacks `prompts` or `projects`; otherwise replaces both collections. */
    method ImportData(text: Payload, now: string) returns (ok: bool)
      requires Valid()
      modifies this
      ensures Valid()
      ensures ok <==> ImportedState(text).Some?
      ensures ok ==> prompts == text.prompts.value && projects == text.projects.value
                     && slot == Some(Encode(Snapshot(now)))
      ensures !ok ==> prompts == old(prompts) && projects == old(projects) && slot == old(slot)
    {
      var s := ImportedState(text);
      if s.None? {
        return false;
      }
      prompts, projects := s.value.prompts, s.value.projects;
      slot := Some(Encode(Snapshot(now)));
      ok := true;
    }

    /** `getPromptsForProject`: the prompts of project `projectId`, in list order. */
    function PromptsForProject(projectId: string): (r: seq<Prompt>)
      reads this
      ensures forall p :: p in r <==> p in prompts && p.projectId == Some(projectId)
      ensures forall p :: multiset(r)[p] == if p.projectId == Some(projectId) then multiset(prompts)[p] else 0
      ensures Seqs.Subseq(r, prompts)
    {
      Seqs.Filter(prompts, (p: Prompt) => p.projectId == Some(projectId))
    }

    /** `getGenericPrompts`: the prompts with no project, in list order. */
    function GenericPrompts(): (r: seq<Prompt>)
      reads this
      ensures forall p :: p in r <==> p in prompts && IsGeneric(p)
      ensures forall p :: multiset(r)[p] == if IsGeneric(p) then multiset(prompts)[p] else 0
      ensures Seqs.Subseq(r, prompts)
    {
      Seqs.Filter(prompts, IsGeneric)
    }
  }

  /** Once no prompt references project `id`, the project has no prompts. */
  lemma NoPromptsForUnlinked(s: Store, id: string)
    requires forall i :: 0 <= i < |s.prompts| ==> s.prompts[i].projectId != Some(id)
    ensures s.PromptsForProject(id) == []
  {
    assert forall p :: p in s.prompts ==> p.projectId != Some(id);
  }

  /** A prompt of a named project is never also a generic prompt. */
  lemma ProjectAndGenericDisjoint(s: Store, projectId: string)
    requires projectId != ""
    ensures forall p :: p in s.PromptsForProject(projectId) ==> p !in s.GenericPrompts()
  {
  }

  /** Deleting a project loses no prompt: every prompt that referenced it
      reappears, unchanged but for its project reference, among the generic
      prompts, and every other prompt is still there. */
  lemma UnlinkedKeepsEveryPrompt(ps: seq<Prompt>, id: string)
    ensures forall p :: p in ps && p.projectId == Some(id) ==> p.(projectId := None) in Unlinked(ps, id)
    ensures forall p :: p in ps && p.projectId != Some(id) ==> p in Unlinked(ps, id)
    ensures forall p :: p in Unlinked(ps, id) ==> p in ps || (p.projectId == None && p.(projectId := Some(id)) in ps)
  {
    var r := Unlinked(ps, id);
    forall p | p in ps
      ensures p.projectId == Some(id) ==> p.(projectId := None) in r
      ensures p.projectId != Some(id) ==> p in r
    {
      var i :| 0 <= i < |ps| && ps[i] == p;
      assert r[i] in r;
    }
    forall p | p in r
      ensures p in ps || (p.projectId == None && p.(projectId := Some(id)) in ps)
    {
      var i :| 0 <= i < |r| && r[i] == p;
      if ps[i].projectId == Some(id) {
        assert ps[i] == p.(projectId := Some(id));
      }
    }
  }
}
