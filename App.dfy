/** The rules of `src/App.tsx`: the search and category filter, the startup
    decision to take over the remote copy, the toast list, and the handlers
    that save and delete through the store. */
module App {
  import opened Types
  import Text
  import Seqs
  import Storage

  /** The category selector: every category, or one. */
  datatype CategoryFilter = All | Only(category: Category)

  datatype ToastKind = Success | Error | Info

  datatype Toast = Toast(id: string, kind: ToastKind, message: string)

  /** Which modal dialog is open. */
  datatype Modal = Closed | PromptModal | ProjectModal | ViewPromptModal | GitHubSyncModal

  /** The outcome of loading the remote copy: the request failed, there is no
      remote file yet, or what `JSON.parse` made of the file. The parsed value is
      cast to a document without any check, so its fields may be missing; a file
      that does not parse makes the load throw, like a failed request. */
  datatype Pull = PullFailed | NotFound | Pulled(data: Payload)

  const SyncedMessage: string := "Datos sincronizados desde GitHub"
  const ImportedMessage: string := "Datos importados correctamente"
  const ImportFailedMessage: string := "Error al importar los datos"
  const PromptUpdatedMessage: string := "Prompt actualizado"
  const PromptCreatedMessage: string := "Prompt creado"
  const PromptDeletedMessage: string := "Prompt eliminado"
  const ProjectUpdatedMessage: string := "Proyecto actualizado"
  const ProjectCreatedMessage: string := "Proyecto creado"
  const ProjectDeletedMessage: string := "Proyecto eliminado"

  /** The lower-cased search term occurs in the lower-cased title, content or one of the tags. */
  predicate MatchesSearch(p: Prompt, term: string) {
    var t := Text.Lower(term);
    || Text.Contains(Text.Lower(p.title), t)
    || Text.Contains(Text.Lower(p.content), t)
    || exists tag | tag in p.tags :: Text.Contains(Text.Lower(tag), t)
  }

  predicate MatchesCategory(p: Prompt, filter: CategoryFilter) {
    filter.All? || p.category == filter.category
  }

  /** `filteredPrompts`: the prompts that match both the search term and the
      category, in their original order. */
  function FilteredPrompts(ps: seq<Prompt>, term: string, filter: CategoryFilter): (r: seq<Prompt>)
    ensures forall p :: p in r <==> p in ps && MatchesSearch(p, term) && MatchesCategory(p, filter)
    ensures forall p :: multiset(r)[p] == if MatchesSearch(p, term) && MatchesCategory(p, filter)
                                          then multiset(ps)[p] else 0
    ensures Seqs.Subseq(r, ps)
  {
    Seqs.Filter(ps, (p: Prompt) => MatchesSearch(p, term) && MatchesCategory(p, filter))
  }

  /** With an empty search term and every category selected, nothing is filtered out. */
  lemma EmptySearchKeepsAll(ps: seq<Prompt>)
    ensures FilteredPrompts(ps, "", All) == ps
  {
    assert Text.Lower("") == "";
    forall p | p in ps ensures MatchesSearch(p, "") {
      Text.ContainsEmpty(Text.Lower(p.title));
    }
  }

  /** With an empty search term, a prompt is kept exactly when its category is the selected one. */
  lemma EmptySearchFiltersByCategory(ps: seq<Prompt>, c: Category)
    ensures forall p :: p in FilteredPrompts(ps, "", Only(c)) <==> p in ps && p.category == c
  {
    assert Text.Lower("") == "";
    forall p | p in ps ensures MatchesSearch(p, "") {
      Text.ContainsEmpty(Text.Lower(p.title));
    }
  }

  /** The search ignores the case of the term: searching for it lower-cased gives the same list. */
  lemma SearchIgnoresCase(ps: seq<Prompt>, term: string, filter: CategoryFilter)
    ensures FilteredPrompts(ps, term, filter) == FilteredPrompts(ps, Text.Lower(term), filter)
  {
    Text.LowerIdempotent(term);
    Seqs.FilterCongruent(ps,
      (p: Prompt) => MatchesSearch(p, term) && MatchesCategory(p, filter),
      (p: Prompt) => MatchesSearch(p, Text.Lower(term)) && MatchesCategory(p, filter));
  }

  /** The startup decision: take over the remote copy only when it was loaded,
      holds at least one prompt or project, and the local slot is empty or
      holds strictly fewer prompts. Reading a missing list throws, and the
      exception is swallowed (no import): the remote `prompts`, the remote
      `projects` when the remote prompts are empty, a local slot that does not
      parse or has no `prompts`. */
  function ShouldImportRemote(pull: Pull, local: Option<Payload>): (r: bool)
    ensures r <==>
      && pull.Pulled? && pull.data.Parsed? && pull.data.prompts.Some?
      && (|pull.data.prompts.value| > 0 || (pull.data.projects.Some? && |pull.data.projects.value| > 0))
      && (local.None? || (local.value.Parsed? && local.value.prompts.Some?
                          && |local.value.prompts.value| < |pull.data.prompts.value|))
  {
    match pull
    case Pulled(Parsed(Some(remotePrompts), remoteProjects, _, _)) =>
      && (|remotePrompts| > 0 || (match remoteProjects
                                  case Some(ps) => |ps| > 0
                                  case None => false))
      && (match local
          case None => true
          case Some(Unparsable) => false
          case Some(Parsed(None, _, _, _)) => false
          case Some(Parsed(Some(localPrompts), _, _, _)) => |localPrompts| < |remotePrompts|)
    case _ => false
  }

  /** Once the store is mounted its slot always holds a snapshot, so for a
      well-formed remote document the decision reduces to comparing prompt
      counts: the "slot is empty" case never arises. */
  lemma StartupDecisionAfterMount(s: Storage.Store, data: AppData)
    requires s.Valid()
    ensures ShouldImportRemote(Pulled(Encode(data)), s.slot)
            <==> (|data.prompts| > 0 || |data.projects| > 0) && |s.prompts| < |data.prompts|
  {
  }

  /** Consequently a remote copy whose prompts are missing or empty is never
      taken over, whatever projects it holds. */
  lemma ProjectsOnlyRemoteIgnored(s: Storage.Store, remote: Payload)
    requires s.Valid()
    requires remote.Parsed? && remote.prompts.Some? ==> remote.prompts.value == []
    ensures !ShouldImportRemote(Pulled(remote), s.slot)
  {
  }

  /** A remote copy with prompts but no `projects` passes the startup decision
      when the library holds fewer prompts, yet the import it triggers fails:
      the success toast is shown and the library is left as it was. */
  lemma SyncWithoutProjectsImportsNothing(s: Storage.Store, remotePrompts: seq<Prompt>)
    requires s.Valid() && |s.prompts| < |remotePrompts|
    ensures ShouldImportRemote(Pulled(Parsed(Some(remotePrompts), None, None, None)), s.slot)
    ensures Storage.ImportedState(Parsed(Some(remotePrompts), None, None, None)).None?
  {
  }

  /** `toasts.filter(t => t.id !== id)`. */
  function WithoutToast(ts: seq<Toast>, id: string): (r: seq<Toast>)
    ensures forall t :: t in r <==> t in ts && t.id != id
    ensures forall t :: multiset(r)[t] == if t.id != id then multiset(ts)[t] else 0
    ensures Seqs.Subseq(r, ts)
  {
    Seqs.Filter(ts, (t: Toast) => t.id != id)
  }

  /** The edit form's draft as a partial update: every field is present, so an
      unset image or project clears the old one. */
  function PromptDraftUpdate(d: PromptDraft): PromptUpdate {
    PromptUpdate(Some(d.title), Some(d.content), Some(d.category), Some(d.tags), Put(d.imageUrl), Put(d.projectId))
  }

  function ProjectDraftUpdate(d: ProjectDraft): ProjectUpdate {
    ProjectUpdate(Some(d.name), Some(d.description), Put(d.thumbnailUrl))
  }

  /** Saving an edit replaces every field the form shows and keeps the id and creation time. */
  lemma EditedPromptTakesDraft(p: Prompt, d: PromptDraft, now: string)
    ensures Storage.MergePrompt(p, PromptDraftUpdate(d), now)
            == Storage.NewPrompt(d, p.id, p.createdAt).(updatedAt := now)
  {
  }

  /** Saving an edited project replaces its name, description and thumbnail. */
  lemma EditedProjectTakesDraft(p: Project, d: ProjectDraft, now: string)
    ensures Storage.MergeProject(p, ProjectDraftUpdate(d), now)
            == Storage.NewProject(d, p.id, p.createdAt).(updatedAt := now)
  {
  }

  /** The state of the application component that the model covers. */
  class AppState {
    const store: Storage.Store
    var toasts: seq<Toast>
    var selectedProject: Option<Project>
    var editingPrompt: Option<Prompt>
    var editingProject: Option<Project>
    var modal: Modal
    var searchTerm: string
    var categoryFilter: CategoryFilter

    ghost predicate Valid()
      reads this, store
    {
      store.Valid()
    }

    constructor (store: Storage.Store)
      requires store.Valid()
      ensures Valid()
      ensures this.store == store
      ensures toasts == [] && selectedProject == None && editingPrompt == None && editingProject == None
      ensures modal == Closed && searchTerm == "" && categoryFilter == All
    {
      this.store := store;
      toasts, selectedProject, editingPrompt, editingProject := [], None, None, None;
      modal, searchTerm, categoryFilter := Closed, "", All;
    }

    /** The generic prompts that pass the current search and category filter, in list order. */
    function DisplayedPrompts(): (r: seq<Prompt>)
      reads this, store
      ensures forall p :: p in r <==> p in store.prompts && IsGeneric(p)
                                      && MatchesSearch(p, searchTerm) && MatchesCategory(p, categoryFilter)
      ensures forall p :: multiset(r)[p] == if IsGeneric(p) && MatchesSearch(p, searchTerm)
                                               && MatchesCategory(p, categoryFilter)
                                            then multiset(store.prompts)[p] else 0
      ensures Seqs.Subseq(r, store.GenericPrompts())
    {
      FilteredPrompts(store.GenericPrompts(), searchTerm, categoryFilter)
    }

    /** `showToast`: the toast goes at the end of the list. */
    method ShowToast(id: string, kind: ToastKind, message: string)
      modifies this
      ensures toasts == old(toasts) + [Toast(id, kind, message)]
      ensures selectedProject == old(selectedProject) && editingPrompt == old(editingPrompt)
      ensures editingProject == old(editingProject) && modal == old(modal)
      ensures searchTerm == old(searchTerm) && categoryFilter == old(categoryFilter)
    {
      toasts := toasts + [Toast(id, kind, message)];
    }

    /** `dismissToast`, also what the four-second timer of `showToast` does. */
    method DismissToast(id: string)
      modifies this
      ensures toasts == WithoutToast(old(toasts), id)
      ensures selectedProject == old(selectedProject) && editingPrompt == old(editingPrompt)
      ensures editingProject == old(editingProject) && modal == old(modal)
      ensures searchTerm == old(searchTerm) && categoryFilter == old(categoryFilter)
    {
      toasts := WithoutToast(toasts, id);
    }

    /** The startup load: with a token, and when `ShouldImportRemote` says so,
        the remote document is imported and a toast announces the sync, whether
        or not the import succeeded; in every other case, including a failed
        load, nothing changes. */
    method StartupSync(hasToken: bool, pull: Pull, toastId: string, now: string)
      requires Valid()
      modifies this, store
      ensures Valid()
      ensures hasToken && ShouldImportRemote(pull, old(store.slot)) ==>
        toasts == old(toasts) + [Toast(toastId, Success, SyncedMessage)]
      ensures hasToken && ShouldImportRemote(pull, old(store.slot)) && Storage.ImportedState(pull.data).Some? ==>
        store.prompts == pull.data.prompts.value && store.projects == pull.data.projects.value
      ensures !(hasToken && ShouldImportRemote(pull, old(store.slot)) && Storage.ImportedState(pull.data).Some?) ==>
        && store.prompts == old(store.prompts) && store.projects == old(store.projects)
        && store.slot == old(store.slot)
      ensures !(hasToken && ShouldImportRemote(pull, old(store.slot))) ==> toasts == old(toasts)
      ensures selectedProject == old(selectedProject) && modal == old(modal)
      ensures editingPrompt == old(editingPrompt) && editingProject == old(editingProject)
      ensures searchTerm == old(searchTerm) && categoryFilter == old(categoryFilter)
    {
      if !hasToken {
        return;
      }
      if ShouldImportRemote(pull, store.slot) {
        var _ := store.ImportData(pull.data, now);
        ShowToast(toastId, Success, SyncedMessage);
      }
    }

    /** The `import-json` event: import the text and report the outcome in a toast. */
    method HandleImport(text: Payload, toastId: string, now: string) returns (ok: bool)
      requires Valid()
      modifies this, store
      ensures Valid()
      ensures ok <==> Storage.ImportedState(text).Some?
      ensures ok ==> store.prompts == text.prompts.value && store.projects == text.projects.value
      ensures !ok ==> store.prompts == old(store.prompts) && store.projects == old(store.projects)
                      && store.slot == old(store.slot)
      ensures toasts == old(toasts) + [if ok then Toast(toastId, Success, ImportedMessage)
                                       else Toast(toastId, Error, ImportFailedMessage)]
      ensures selectedProject == old(selectedProject) && modal == old(modal)
      ensures editingPrompt == old(editingPrompt) && editingProject == old(editingProject)
      ensures searchTerm == old(searchTerm) && categoryFilter == old(categoryFilter)
    {
      ok := store.ImportData(text, now);
      if ok {
        ShowToast(toastId, Success, ImportedMessage);
      } else {
        ShowToast(toastId, Error, ImportFailedMessage);
      }
    }

    /** `handleSavePrompt`: updates the prompt being edited, or adds a new one;
        then closes the dialog. */
    method SavePrompt(d: PromptDraft, newId: string, toastId: string, now: string)
      requires Valid()
      modifies this, store
      ensures Valid()
      ensures old(editingPrompt).Some? ==>
        && store.prompts == Storage.UpdatedPrompts(old(store.prompts), old(editingPrompt).value.id, PromptDraftUpdate(d), now)
        && toasts == old(toasts) + [Toast(toastId, Success, PromptUpdatedMessage)]
      ensures old(editingPrompt).None? ==>
        && store.prompts == [Storage.NewPrompt(d, newId, now)] + old(store.prompts)
        && toasts == old(toasts) + [Toast(toastId, Success, PromptCreatedMessage)]
      ensures store.projects == old(store.projects)
      ensures modal == Closed && editingPrompt == None && selectedProject == old(selectedProject)
      ensures editingProject == old(editingProject)
      ensures searchTerm == old(searchTerm) && categoryFilter == old(categoryFilter)
    {
      if editingPrompt.Some? {
        store.UpdatePrompt(editingPrompt.value.id, PromptDraftUpdate(d), now);
        ShowToast(toastId, Success, PromptUpdatedMessage);
      } else {
        var _ := store.AddPrompt(d, newId, now);
        ShowToast(toastId, Success, PromptCreatedMessage);
      }
      modal := Closed;
      editingPrompt := None;
    }

    /** `handleDeletePrompt`: only once the user confirms. */
    method DeletePrompt(id: string, confirmed: bool, toastId: string, now: string)
      requires Valid()
      modifies this, store
      ensures Valid()
      ensures confirmed ==> store.prompts == Storage.WithoutPrompt(old(store.prompts), id)
                            && toasts == old(toasts) + [Toast(toastId, Success, PromptDeletedMessage)]
      ensures !confirmed ==> store.prompts == old(store.prompts) && store.slot == old(store.slot)
                             && toasts == old(toasts)
      ensures store.projects == old(store.projects) && selectedProject == old(selectedProject)
      ensures modal == old(modal)
      ensures editingPrompt == old(editingPrompt) && editingProject == old(editingProject)
      ensures searchTerm == old(searchTerm) && categoryFilter == old(categoryFilter)
    {
      if confirmed {
        store.DeletePrompt(id, now);
        ShowToast(toastId, Success, PromptDeletedMessage);
      }
    }

    /** `handleSaveProject`: updates the project being edited (and the open
        project view, if it shows that project), or adds a new one; then closes
        the dialog. */
    method SaveProject(d: ProjectDraft, newId: string, toastId: string, now: string)
      requires Valid()
      modifies this, store
      ensures Valid()
      ensures old(editingProject).Some? ==>
        && store.projects == Storage.UpdatedProjects(old(store.projects), old(editingProject).value.id, ProjectDraftUpdate(d), now)
        && toasts == old(toasts) + [Toast(toastId, Success, ProjectUpdatedMessage)]
        && selectedProject == (
             if old(selectedProject).Some? && old(selectedProject).value.id == old(editingProject).value.id
             then Some(old(selectedProject).value.(name := d.name, description := d.description, thumbnailUrl := d.thumbnailUrl))
             else old(selectedProject))
      ensures old(editingProject).None? ==>
        && store.projects == [Storage.NewProject(d, newId, now)] + old(store.projects)
        && toasts == old(toasts) + [Toast(toastId, Success, ProjectCreatedMessage)]
        && selectedProject == old(selectedProject)
      ensures store.prompts == old(store.prompts)
      ensures modal == Closed && editingProject == None && editingPrompt == old(editingPrompt)
      ensures searchTerm == old(searchTerm) && categoryFilter == old(categoryFilter)
    {
      if editingProject.Some? {
        var editedId := editingProject.value.id;
        store.UpdateProject(editedId, ProjectDraftUpdate(d), now);
        ShowToast(toastId, Success, ProjectUpdatedMessage);
        if selectedProject.Some? && selectedProject.value.id == editedId {
          selectedProject := Some(selectedProject.value.(name := d.name, description := d.description,
                                                         thumbnailUrl := d.thumbnailUrl));
        }
      } else {
        var _ := store.AddProject(d, newId, now);
        ShowToast(toastId, Success, ProjectCreatedMessage);
      }
      modal := Closed;
      editingProject := None;
    }

    /** `handleDeleteProject`: only once the user confirms; the project view is
        closed when it showed the deleted project. */
    method DeleteProject(id: string, confirmed: bool, toastId: string, now: string)
      requires Valid()
      modifies this, store
      ensures Valid()
      ensures confirmed ==>
        && store.projects == Storage.WithoutProject(old(store.projects), id)
        && store.prompts == Storage.Unlinked(old(store.prompts), id)
        && toasts == old(toasts) + [Toast(toastId, Success, ProjectDeletedMessage)]
        && selectedProject == (if old(selectedProject).Some? && old(selectedProject).value.id == id
                               then None else old(selectedProject))
      ensures !confirmed ==>
        && store.prompts == old(store.prompts) && store.projects == old(store.projects)
        && store.slot == old(store.slot) && toasts == old(toasts) && selectedProject == old(selectedProject)
      ensures modal == old(modal)
      ensures editingPrompt == old(editingPrompt) && editingProject == old(editingProject)
      ensures searchTerm == old(searchTerm) && categoryFilter == old(categoryFilter)
    {
      if confirmed {
        store.DeleteProject(id, now);
        ShowToast(toastId, Success, ProjectDeletedMessage);
        if selectedProject.Some? && selectedProject.value.id == id {
          selectedProject := None;
        }
      }
    }
  }
}
