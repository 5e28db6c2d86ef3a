/** The records of the library (`src/types/index.ts`) and the parsed form of
    the JSON document they are stored and exchanged in. */
module Types {

  datatype Option<+T> = None | Some(value: T)

  /** The kind of model a prompt is written for. */
  datatype Category = Chat | Code | Image | Video

  /** A prompt. An absent or empty `projectId` makes it a generic prompt. */
  datatype Prompt = Prompt(
    id: string,
    title: string,
    content: string,
    category: Category,
    tags: seq<string>,
    imageUrl: Option<string>,
    projectId: Option<string>,
    createdAt: string,
    updatedAt: string)

  /** A project that groups prompts; its description is always present, possibly empty. */
  datatype Project = Project(
    id: string,
    name: string,
    description: string,
    thumbnailUrl: Option<string>,
    createdAt: string,
    updatedAt: string)

  /** The unit of persistence and export. */
  datatype AppData = AppData(
    prompts: seq<Prompt>,
    projects: seq<Project>,
    version: string,
    exportedAt: string)

  /** A prompt without its id and timestamps: what the prompt form saves
      and what `addPrompt` completes. */
  datatype PromptDraft = PromptDraft(
    title: string,
    content: string,
    category: Category,
    tags: seq<string>,
    imageUrl: Option<string>,
    projectId: Option<string>)

  /** A project without its id and timestamps. */
  datatype ProjectDraft = ProjectDraft(
    name: string,
    description: string,
    thumbnailUrl: Option<string>)

  /** How an update treats an optional field: a key missing from the partial
      record keeps the old value; a key that is present replaces it, and a
      present key holding `undefined` clears it. */
  datatype Patch<+T> = Keep | Put(value: Option<T>)

  /** The partial record `updatePrompt` merges into a prompt. */
  datatype PromptUpdate = PromptUpdate(
    title: Option<string>,
    content: Option<string>,
    category: Option<Category>,
    tags: Option<seq<string>>,
    imageUrl: Patch<string>,
    projectId: Patch<string>)

  /** The partial record `updateProject` merges into a project. */
  datatype ProjectUpdate = ProjectUpdate(
    name: Option<string>,
    description: Option<string>,
    thumbnailUrl: Patch<string>)

  /** What `JSON.parse` makes of a stored or imported text: either a syntax
      error, or a value whose top-level `prompts`, `projects`, `version` and
      `exportedAt` fields are each present or missing. A JSON value that is
      not an object reads as one with every field missing. */
  datatype Payload =
    | Unparsable
    | Parsed(
        prompts: Option<seq<Prompt>>,
        projects: Option<seq<Project>>,
        version: Option<string>,
        exportedAt: Option<string>)

  /** The text `JSON.stringify` writes for a document, as `JSON.parse` reads it back. */
  function Encode(d: AppData): Payload
  {
    Parsed(Some(d.prompts), Some(d.projects), Some(d.version), Some(d.exportedAt))
  }

  /** A prompt with no project, or with the empty project id (`!p.projectId`). */
  predicate IsGeneric(p: Prompt) {
    p.projectId == None || p.projectId == Some("")
  }
}
