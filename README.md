# Prompt library: a Dafny model of the local store and its rules

The prompt library keeps AI prompts, optionally grouped into projects, in the
browser. This project models the part of it with logic in it:

- **the local store** (`Storage`, from `src/hooks/useStorage.ts`): a class
  whose fields are the two ordered collections, `prompts` and `projects`, and
  the browser storage slot that receives a snapshot of them after every change.
  Its methods add (prepend, with a caller-supplied id and time), update (merge
  by id), delete, delete a project (clearing every prompt's reference to it),
  import (fail closed, otherwise replace both collections), and it has the two
  queries and the export.
- **the application rules** (`App`, from `src/App.tsx`): the search and
  category filter, the startup decision to take over the remote copy, the
  toast list, and the save/delete handlers that dispatch to the store.
- **the forms** (`PromptForm`, `ProjectForm`): tag entry and removal, and the
  validation and normalisation of what is saved.
- **the image arithmetic** (`ImageUtils`, from `src/utils/imageUtils.ts`): the
  data-URI check, the base64 size estimate and limit, and the downscale rule.

Supporting modules: `Types` (the records of `src/types/index.ts`, and the
parsed form of a JSON text), `Text` (`trim`, `toLowerCase`, `includes`,
`startsWith`) and `Seqs` (order-preserving `filter` and conditional `map`).

Randomly generated ids, the clock, the user's answer to a confirmation dialog
and the outcome of loading the remote copy are parameters of the methods that
use them. A JSON text is represented by what `JSON.parse` makes of it: a
syntax error, or an object whose top-level fields are each present or missing.

Behaviour of the code worth knowing, each stated by a member of the model:

- The downscale rule bounds only the longer side of an image
  (`FitDimensions`): `LandscapeHeightNotBounded` shows a 2000x1500 image
  coming out 1920x1440 under a 1920x1080 bound, taller than the height bound.
- The store writes its snapshot to the slot when it mounts, before the startup
  load runs, so the "local copy is missing" branch of the startup decision
  never applies: the decision is a plain comparison of prompt counts
  (`StartupDecisionAfterMount`), and a remote copy whose prompts are missing
  or empty is never taken over, even into an empty library
  (`ProjectsOnlyRemoteIgnored`).
- The remote document is used without any check of its shape. One that holds
  prompts but no `projects` passes the startup decision, the import it
  triggers fails, and the "synchronised" toast is shown anyway
  (`StartupSync`, `SyncWithoutProjectsImportsNothing`).
- Generic prompts are those whose project reference is absent **or empty**
  (`!p.projectId`).

## Model

| member | source | states |
|---|---|---|
| Storage.InitialState | src/hooks/useStorage.ts:12-26 | a missing, empty or unparsable slot gives two empty collections; a parsed one gives its `prompts`/`projects`, each defaulting to empty when missing |
| Storage.Store.constructor | src/hooks/useStorage.ts:29-40 | the store starts from `InitialState` of the slot and writes its snapshot back (version 1.0.0) |
| Storage.NewPrompt | src/hooks/useStorage.ts:44-49 | a new prompt carries the draft's fields, the given id, and the given time as both creation and update time |
| Storage.Store.AddPrompt | src/hooks/useStorage.ts:43-52 | the returned prompt is the one put at index 0; the old list follows unchanged; projects unchanged; unique ids stay unique for a fresh id; snapshot written |
| Storage.MergePrompt | src/hooks/useStorage.ts:57-59 | a merged prompt keeps id and creation time, takes every field the update carries (an explicit clear removes image or project), and gets update time `now` |
| Storage.UpdatedPrompts | src/hooks/useStorage.ts:54-61 | same length and order; every prompt keeps id and creation time; other ids untouched; matching ids merged; an unknown id changes nothing |
| Storage.Store.UpdatePrompt | src/hooks/useStorage.ts:54-61 | prompts become `UpdatedPrompts` of the old ones, projects unchanged, unique prompt ids stay unique, snapshot written |
| Storage.WithoutPrompt | src/hooks/useStorage.ts:63-68 | exactly the prompts with another id, each as many times as before, as a subsequence in the original order; an absent id changes nothing |
| Storage.WithoutPromptKeepsIdsUnique | src/hooks/useStorage.ts:63-68 | deleting a prompt from a list with unique ids leaves the ids unique |
| Storage.Store.DeletePrompt | src/hooks/useStorage.ts:63-68 | prompts become `WithoutPrompt` of the old ones, projects unchanged, unique prompt ids stay unique, snapshot written |
| Storage.NewProject | src/hooks/useStorage.ts:72-77 | a new project carries the draft's fields, the given id, and the given time as both creation and update time |
| Storage.Store.AddProject | src/hooks/useStorage.ts:71-80 | the returned project is the one put at index 0; the old list follows; prompts unchanged; snapshot written |
| Storage.MergeProject | src/hooks/useStorage.ts:85-87 | a merged project keeps id and creation time, takes the update's fields, gets update time `now` |
| Storage.UpdatedProjects | src/hooks/useStorage.ts:82-89 | same length and order; ids and creation times kept; other ids untouched; matching ids merged; unknown id changes nothing |
| Storage.Store.UpdateProject | src/hooks/useStorage.ts:82-89 | projects become `UpdatedProjects` of the old ones, prompts unchanged, unique project ids stay unique, snapshot written |
| Storage.WithoutProject | src/hooks/useStorage.ts:91-94 | exactly the projects with another id, each as many times as before, in the original order; an absent id changes nothing |
| Storage.Unlinked | src/hooks/useStorage.ts:95-98 | same number of prompts in the same places, each keeping its id; none references the project; those that did lose only the reference; the rest are identical |
| Storage.WithoutProjectKeepsIdsUnique | src/hooks/useStorage.ts:91-94 | deleting a project from a list with unique ids leaves the ids unique |
| Storage.UnlinkedKeepsIdsUnique | src/hooks/useStorage.ts:95-98 | unlinking prompts from a project keeps unique prompt ids unique |
| Storage.UnlinkedKeepsEveryPrompt | src/hooks/useStorage.ts:91-100 | no cascade: every prompt survives the project's deletion, the referencing ones with the reference cleared, and nothing else appears |
| Storage.Store.DeleteProject | src/hooks/useStorage.ts:91-100 | projects become `WithoutProject` and prompts `Unlinked` of the old ones (so unique ids stay unique, by the two lemmas above); afterwards no prompt belongs to the project; snapshot written |
| Storage.NoPromptsForUnlinked | src/hooks/useStorage.ts:91-100 | once no prompt references a project, `getPromptsForProject` of it is empty |
| Storage.Store.ExportData | src/hooks/useStorage.ts:103-111 | the export carries version 1.0.0 and the export time, and importing it restores exactly the current collections |
| Storage.ImportedState | src/hooks/useStorage.ts:113-128 | an import succeeds exactly when the text parses and has both `prompts` and `projects`, and then yields those two collections |
| Storage.ExportImportRoundTrip | src/hooks/useStorage.ts:103-128 | importing an exported document gives back its prompts and projects |
| Storage.Store.ImportData | src/hooks/useStorage.ts:113-128 | returns whether the import succeeded; on success both collections are the payload's; on failure the collections and the slot are unchanged |
| Storage.Store.PromptsForProject | src/hooks/useStorage.ts:130-132 | exactly the prompts whose project is the given id, each as many times as in the store, in list order |
| Storage.Store.GenericPrompts | src/hooks/useStorage.ts:134-136 | exactly the prompts with an absent or empty project, each as many times as in the store, in list order |
| Storage.ProjectAndGenericDisjoint | src/hooks/useStorage.ts:130-136 | for a non-empty project id no prompt is both in that project and generic |
| App.FilteredPrompts | src/App.tsx:219-230 | a prompt is kept iff the lower-cased term occurs in its lower-cased title, content or a tag and its category matches (`All` matching every one); a kept prompt keeps all its copies; the result is an order-preserving subsequence |
| App.EmptySearchKeepsAll | src/App.tsx:221-226 | an empty term with every category selected keeps the whole list |
| App.EmptySearchFiltersByCategory | src/App.tsx:221-226 | with an empty term, a prompt is kept iff its category is the selected one |
| App.SearchIgnoresCase | src/App.tsx:221-224 | searching for a term or for its lower-cased form gives the same list |
| App.ShouldImportRemote | src/App.tsx:72-85 | import exactly when the remote copy was loaded, has `prompts`, and has at least one prompt or else at least one project, and the slot is missing or holds strictly fewer prompts; a missing list read on the way (remote `prompts`, remote `projects` when the prompts are empty, local `prompts`) or a slot that fails to parse prevents it |
| App.StartupDecisionAfterMount | src/App.tsx:74-77 | once the store is mounted the decision for a well-formed remote document is: remote non-empty and local prompt count strictly below the remote one |
| App.ProjectsOnlyRemoteIgnored | src/App.tsx:74-77 | a remote copy whose prompts are missing or empty is never taken over once the store is mounted |
| App.SyncWithoutProjectsImportsNothing | src/App.tsx:74-80 | a remote copy with more prompts than the library but no `projects` passes the decision while its import fails |
| App.WithoutToast | src/App.tsx:62-64 | exactly the toasts with another id, each as many times as before, in order |
| App.EditedPromptTakesDraft | src/App.tsx:159-161 | saving an edited prompt gives it every field of the form, keeping its id and creation time |
| App.EditedProjectTakesDraft | src/App.tsx:189-191 | saving an edited project gives it the form's name, description and thumbnail, keeping id and creation time |
| App.AppState.constructor | src/App.tsx:27-35 | over a mounted store: no toasts, no selected project, nothing being edited, no dialog, empty search, every category |
| App.AppState.DisplayedPrompts | src/App.tsx:232-234 | the generic prompts that pass the current search and category, each as many times as in the store, in list order |
| App.AppState.ShowToast | src/App.tsx:54-60 | one toast appended at the end; nothing else changes |
| App.AppState.DismissToast | src/App.tsx:62-64 | the toasts with that id are removed, the others kept in order; nothing else changes |
| App.AppState.StartupSync | src/App.tsx:67-89 | with a token and a positive decision the success toast is shown and the store takes the remote collections when the import succeeds (otherwise it and its slot are unchanged); with no token, a failed or absent load or a negative decision nothing changes; selection, dialog, editing and search fields are never touched |
| App.AppState.HandleImport | src/App.tsx:92-100 | imports the text, reporting success or failure in a toast; a failed import leaves the collections and the slot as they were; selection, dialog, editing and search fields unchanged |
| App.AppState.SavePrompt | src/App.tsx:159-169 | an edited prompt is updated with the form's draft, otherwise a new prompt is prepended; a toast reports which; then the dialog closes and no prompt is being edited; projects, selection, edited project and search fields unchanged |
| App.AppState.DeletePrompt | src/App.tsx:171-176 | the prompt is deleted, with a toast, only when the user confirms; otherwise the store, its slot and the toasts are unchanged; projects, selection, dialog, editing and search fields never change |
| App.AppState.SaveProject | src/App.tsx:189-202 | an edited project is updated, and the open project view follows it; otherwise a new project is prepended; a toast reports which; then the dialog closes and no project is being edited; prompts, edited prompt and search fields unchanged |
| App.AppState.DeleteProject | src/App.tsx:204-212 | on confirmation the project is deleted (prompts unlinked), a toast shown and the view of that project, if open, cleared; otherwise nothing changes; dialog, editing and search fields never change |
| PromptForm.NormalizeTag | src/components/PromptForm.tsx:65 | the tag is the input trimmed, then lower-cased; it is empty exactly when the input is blank, and has no white space at either end and no upper-case letter |
| PromptForm.NormalizeTagIdempotent | src/components/PromptForm.tsx:65-66 | normalising a normalised tag changes nothing, so retyping a tag finds it already present |
| PromptForm.WithTag | src/components/PromptForm.tsx:64-70 | old tags kept in order; the normalised input is appended at the end iff it is non-empty and new; a duplicate-free list stays duplicate-free |
| PromptForm.WithoutTag | src/components/PromptForm.tsx:72-74 | every copy of the tag is removed, the other tags kept with all their copies, in order |
| PromptForm.PromptForm.constructor | src/components/PromptForm.tsx:22-40 | editing shows the prompt's fields (with no project when it has none); a new prompt starts blank, as an image prompt, in the current project |
| PromptForm.PromptForm.AddTag | src/components/PromptForm.tsx:64-70 | tags become `WithTag` of the old tags and input, the tag box is cleared, other fields unchanged |
| PromptForm.PromptForm.RemoveTag | src/components/PromptForm.tsx:72-74 | tags become `WithoutTag`, other fields unchanged |
| PromptForm.PromptForm.Submission | src/components/PromptForm.tsx:76-88 | nothing is saved iff title or content is blank; otherwise title and content are trimmed and non-empty, category and tags as they are, image and project absent iff empty and verbatim otherwise |
| ProjectForm.Submission | src/components/ProjectForm.tsx:35-44 | nothing is saved iff the name is blank; otherwise trimmed non-empty name, trimmed description always present, thumbnail absent iff empty and verbatim otherwise |
| ImageUtils.IsBase64Image | src/utils/imageUtils.ts:53-55 | holds iff the text starts with `data:image/` |
| ImageUtils.Base64Size | src/utils/imageUtils.ts:60-63 | the estimate is the ceiling of three quarters of the length, and never exceeds the length |
| ImageUtils.Base64SizeMonotone | src/utils/imageUtils.ts:60-63 | a longer text never has a smaller estimate |
| ImageUtils.IsImageTooLarge | src/utils/imageUtils.ts:68-72 | holds iff the estimate exceeds `maxSizeMB` * 1024 * 1024 bytes, with 1 MB by default |
| ImageUtils.DefaultLimitThreshold | src/utils/imageUtils.ts:68-72 | with the default limit a text is too large iff it is longer than 1398101 characters |
| ImageUtils.ImageUrlToBase64 | src/utils/imageUtils.ts:77-104 | a data URI of an image is returned unchanged; any other URL yields the browser's conversion outcome |
| ImageUtils.FitDimensions | src/utils/imageUtils.ts:11-25 | a landscape image wider than the bound gets the bound as width, a portrait or square one taller than the bound gets it as height, otherwise unchanged; never enlarges; keeps the aspect ratio exactly |
| ImageUtils.LandscapeHeightNotBounded | src/utils/imageUtils.ts:15-19 | a 2000x1500 image under a 1920x1080 bound comes out 1920x1440: only the longer side is bounded |

## Left out

- Remote synchronisation (`src/services/githubSync.ts`): the HTTP calls, the base64 transport, token storage and verification, and the push. The startup load enters only as its outcome (`Pull`: failed, not found, or a document).
- Image decoding and re-encoding in `compressImage` and `imageUrlToBase64` (FileReader, Image, canvas, JPEG quality): browser calls; only the dimension arithmetic and the data-URI short-circuit are modelled.
- Storage.NewPrompt: takes one time for both the creation and the update time; the source reads the clock twice, and the two readings can differ when a millisecond boundary falls between them.
- Storage.NewProject: likewise takes one time where the source reads the clock twice.
- ImageUtils.Base64Size: measures the text in characters, whereas `.length` counts UTF-16 code units; the two differ only on characters outside the Basic Multilingual Plane, which base64 text does not contain.
- ImageUtils.FitDimensions: computes over exact reals, not IEEE doubles, and does not model the canvas truncating a fractional width or height when it is assigned.
- JSON text: parsing and `JSON.stringify` formatting are not modelled (re-encoding a parsed value and parsing it again is taken to give back the same value, as the startup sync does with the remote document); a text is its parsed form. Fields of the wrong JSON type (e.g. `prompts` holding a string) are not represented: a field is either missing or a well-formed list.
- `toLowerCase` is modelled for the ASCII letters only; other Unicode case mappings are left out. `trim` uses the full ECMAScript white-space and line-terminator set.
- Ids (`crypto.randomUUID`) and times (`new Date().toISOString()`) are parameters; the store does not enforce unique ids (an import may bring duplicates), it only keeps them unique when the caller's id is fresh. The persist effect's own export time is taken to be the time of the operation.
- Storage.Store.UpdatePrompt: does not state that the update time strictly increases, because times are supplied by the caller and their order is not modelled; `new Date().toISOString()` is not strictly monotone either.
- Storage.Store.UpdateProject: does not state that the update time strictly increases, for the same reason: the time is supplied by the caller, and the clock read at src/hooks/useStorage.ts:86 is not strictly monotone.
- Timers and scheduling: React's asynchronous effects and re-rendering, and the four-second timer of `showToast` (its effect is `DismissToast`). There is no debounced auto-push in this code.
- The handlers that only open dialogs or change the tab, search box or category selector (`handleCreatePrompt`, `handleEditPrompt`, `handleViewPrompt`, `handleSync`, tab changes), and the export download (Blob, object URL, file name): user-interface state and browser calls.
- Image upload handlers of both forms (FileReader and the compression fallback) and the project form's initial field values: browser calls and markup.
- Presentation components (header, hero section, tabs, search bar, toast view, cards, viewers, GitHub configuration dialog) and build configuration.
