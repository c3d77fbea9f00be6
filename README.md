# Storybook scene store — a Dafny model

The storybook app shows an ordered list of scenes (an image and a text each) with optional background
music. An editor page lets the operator add, edit, reorder and delete scenes and set the music. This
project models the two pieces that hold the app's logic:

- the **story store** (`src/contexts/StoryContext.tsx`). It owns the one document (`audioUrl` plus the
  scene list) and replaces it on every mutation. After each replacement an autosave effect writes the
  document to the browser cache when it has a scene or an audio URL. At start-up it chooses between the
  cached document and the bundled one.
- the **editor** (`src/pages/Admin.tsx`). Its event handlers keep the page's own state (the new scene's
  image and text, the unsaved-changes flag, the delete dialog) and decide when the store is called.

Modules, one per source file:

- `StoryTypes` (`story_types.dfy`) holds the records `Scene` and `StoryData`. It also holds the
  two-field `SceneUpdate` and the `UniqueIds` / `HasId` predicates.
- `SceneOps` (`scene_ops.dfy`) holds the pure list transforms behind each mutation, with their lemmas:
  fresh ids, uniqueness kept, permutation, adjacent swap, round trips and no-ops.
- `StoryStore` (`story_store.dfy`) holds the autosave rule, the start-up source choice and the class
  `Store`. The class has fields `data` (the current document) and `cached` (the cache entry under the
  storage key). Every mutating method replaces `data` through `Commit`, which also runs the autosave rule.
- `AdminEditor` (`admin_editor.dfy`) holds JavaScript's `trim`, the move target and the class `Editor`.
  The class wraps a `Store`, and its handlers are methods.

Two behaviours of the code worth knowing:

- `deleteScene` removes every scene with the id, because it is a filter. With unique ids that is
  exactly one position (`SceneOps.DeleteUniqueRemovesOne`).
- The autosave effect also runs after the start-up load adopts a document (`StoryStore.Store.LoadData`).

## Model

| member | source | states |
|---|---|---|
| `SceneOps.MaxId` | src/contexts/StoryContext.tsx:85 | every id is at most the result, and some scene carries it |
| `SceneOps.NextId` | src/contexts/StoryContext.tsx:84-86 | the new id is above every existing id, so no scene has it; it is 1 for an empty list, and otherwise one more than an id that is present |
| `SceneOps.AppendScene` | src/contexts/StoryContext.tsx:88-91 | the list grows by one; earlier scenes are unchanged and in order; the new last scene has the given image and text and an id above all others; unique ids stay unique |
| `SceneOps.UpdateScenes` | src/contexts/StoryContext.tsx:95-101 | same length and ids; scenes with another id are untouched; a matching scene gets exactly the fields the update gives and keeps the others |
| `SceneOps.UpdateAbsentIsNoOp` | src/contexts/StoryContext.tsx:98-100 | updating an id no scene carries leaves the list equal |
| `SceneOps.UpdateKeepsIds` | src/contexts/StoryContext.tsx:98-100 | the set of ids is unchanged, unique ids stay unique, and applying the same update twice equals applying it once |
| `SceneOps.DeleteScenes` | src/contexts/StoryContext.tsx:105-109 | a scene is kept exactly when it was present and has another id; no scene with the id remains; the list does not grow |
| `SceneOps.DeleteDistributes` | src/contexts/StoryContext.tsx:108 | deleting from `a + b` is deleting from `a` followed by deleting from `b`, so the survivors keep their order |
| `SceneOps.DeleteAbsentIsNoOp` | src/contexts/StoryContext.tsx:108 | deleting an id no scene carries leaves the list equal |
| `SceneOps.DeleteUniqueRemovesOne` | src/contexts/StoryContext.tsx:105-109 | with unique ids, deleting the id found at position k gives the list with exactly position k removed |
| `SceneOps.DeleteKeepsUniqueIds` | src/contexts/StoryContext.tsx:108 | deleting keeps ids unique |
| `SceneOps.AddThenDelete` | src/contexts/StoryContext.tsx:83-109 | deleting the id the add just assigned gives back the list before the add |
| `SceneOps.Reorder` | src/contexts/StoryContext.tsx:113-119 | the moved list has the same length and holds the scene from `from` at `to` |
| `SceneOps.MovedFromInverse` | src/contexts/StoryContext.tsx:116-117 | the reverse move maps every position back to where it started |
| `SceneOps.ReorderAt` | src/contexts/StoryContext.tsx:115-117 | position k of the moved list holds the scene from `MovedFrom(from, to, k)`: the scenes between the two positions shift by one, and all others stay put |
| `SceneOps.ReorderIsPermutation` | src/contexts/StoryContext.tsx:113-119 | the moved list is a permutation of the original (equal multisets) |
| `SceneOps.ReorderSameIndex` | src/contexts/StoryContext.tsx:113-119 | moving a scene to its own position leaves the list equal |
| `SceneOps.ReorderRoundTrip` | src/contexts/StoryContext.tsx:113-119 | moving from `from` to `to` and then back from `to` to `from` restores the list |
| `SceneOps.ReorderAdjacentSwaps` | src/pages/Admin.tsx:207-209 | a move to a neighbouring position swaps exactly those two scenes; every other position is unchanged |
| `SceneOps.ReorderKeepsUniqueIds` | src/contexts/StoryContext.tsx:113-119 | reordering keeps ids unique |
| `SceneOps.ReorderScenario` | src/contexts/StoryContext.tsx:113-119 | moving the third of scenes A, B, C to the front gives C, A, B |
| `SceneOps.IdsFollowCurrentMax` | src/contexts/StoryContext.tsx:84-86 | after two adds (ids 1 and 2), deleting id 1 makes the next id 3, and deleting id 2 makes the next id 2 again: ids come from the current maximum, not from a counter |
| `StoryStore.Autosave` | src/contexts/StoryContext.tsx:54-58 | the cache entry either stays or becomes the document; it changes only for a document with a scene or an audio URL, and always does for one |
| `StoryStore.InitialDocument` | src/contexts/StoryContext.tsx:22-48 | a parsed cache entry with at least one scene is adopted; otherwise the body of a successful fetch (if it parsed); otherwise nothing |
| `StoryStore.InitialDocumentSources` | src/contexts/StoryContext.tsx:25-47 | a usable cache entry wins whatever the fetch gives; an unusable one counts as no entry; an adopted document with no scenes can only come from the fetch |
| `StoryStore.Store.constructor` | src/contexts/StoryContext.tsx:9-19 | the store starts from the default document (no audio, no scenes) |
| `StoryStore.Store.Commit` | src/contexts/StoryContext.tsx:53-58 | replaces the document and applies the autosave rule to the cache entry |
| `StoryStore.Store.LoadData` | src/contexts/StoryContext.tsx:22-51 | adopts the chosen document, and then autosaves it, or keeps the current document and cache when nothing is chosen |
| `StoryStore.Store.SaveToLocalStorage` | src/contexts/StoryContext.tsx:74-80 | writes the current document to the cache, even an empty one, and leaves the document as it is |
| `StoryStore.Store.AddScene` | src/contexts/StoryContext.tsx:83-92 | the scene list becomes `AppendScene` of the old list, with the new id `NextId`; the audio URL is unchanged; unique ids stay unique; autosave follows |
| `StoryStore.Store.UpdateScene` | src/contexts/StoryContext.tsx:95-102 | the scene list becomes `UpdateScenes` of the old list, and stays equal when the id is absent; the audio URL is unchanged; unique ids stay unique; autosave follows |
| `StoryStore.Store.DeleteScene` | src/contexts/StoryContext.tsx:105-110 | the scene list becomes `DeleteScenes` of the old list, so the id is gone; it stays equal when the id is absent; the audio URL is unchanged; unique ids stay unique; autosave follows |
| `StoryStore.Store.ReorderScenes` | src/contexts/StoryContext.tsx:113-120 | the scene list becomes the move of the old list: a permutation with the old `from` scene at `to`, equal when `from == to`; the audio URL is unchanged; unique ids stay unique; autosave follows |
| `StoryStore.Store.SetAudioUrl` | src/contexts/StoryContext.tsx:123-125 | the audio URL is replaced and the scene list is unchanged; autosave follows |
| `AdminEditor.TrimStart` | src/pages/Admin.tsx:173 | the result is a suffix that does not start with white space, and everything dropped was white space |
| `AdminEditor.TrimEnd` | src/pages/Admin.tsx:173 | the result is a prefix that does not end with white space, and everything dropped was white space |
| `AdminEditor.Trim` | src/pages/Admin.tsx:173 | the result is the text with its leading and trailing white space removed: a contiguous part of the text with only white space before and after it, not starting or ending with white space, and empty exactly when the text is all white space |
| `AdminEditor.TargetIndex` | src/pages/Admin.tsx:207 | 'up' targets the position one above and 'down' the position one below |
| `AdminEditor.Editor.constructor` | src/pages/Admin.tsx:100-109 | empty inputs, no unsaved changes, the dialog closed with id and number 0 |
| `AdminEditor.Editor.TrackChange` | src/pages/Admin.tsx:130-132 | sets the unsaved-changes flag and nothing else |
| `AdminEditor.Editor.HandleManualSave` | src/pages/Admin.tsx:123-127 | the cache holds the current document and the flag is cleared |
| `AdminEditor.Editor.SetNewText` | src/pages/Admin.tsx:444 | the new-scene text becomes the typed text |
| `AdminEditor.Editor.ChooseNewImage` | src/pages/Admin.tsx:146-147 | the new-scene image becomes the chosen image |
| `AdminEditor.Editor.ReplaceSceneImage` | src/pages/Admin.tsx:142-144 | only the image of the scenes with that id changes; the flag is set |
| `AdminEditor.Editor.EditSceneText` | src/pages/Admin.tsx:576-579 | only the text of the scenes with that id changes; the flag is set |
| `AdminEditor.Editor.HandleAudioUpload` | src/pages/Admin.tsx:162-166 | the audio URL is replaced and the scenes are unchanged; the flag is set |
| `AdminEditor.Editor.HandleAddScene` | src/pages/Admin.tsx:172-189 | adds exactly when an image is chosen and the text is not blank. It then appends the image with the trimmed text and clears both inputs. Otherwise the store and the inputs are unchanged |
| `AdminEditor.Editor.MoveScene` | src/pages/Admin.tsx:206-213 | moves exactly when the target position exists. It then swaps the scene with that neighbour, leaves all other positions unchanged and sets the flag. Otherwise nothing changes |
| `AdminEditor.Editor.OpenDeleteModal` | src/pages/Admin.tsx:216-218 | the dialog opens, recording the scene id and number |
| `AdminEditor.Editor.HandleConfirmDelete` | src/pages/Admin.tsx:221-225 | deletes the id recorded when the dialog opened, then closes the dialog with id and number 0 |
| `AdminEditor.Editor.HandleCancelDelete` | src/pages/Admin.tsx:228-230 | closes the dialog with id and number 0 and leaves the scenes alone |

## Left out

- `StoryStore.Store.ReorderScenes` requires both indices to be in range. The source has no such check.
  With a bad index `splice` removes nothing, so `undefined` gets inserted, and a negative index counts
  from the end. The only caller checks the target first (src/pages/Admin.tsx:208).
- `StoryStore.Store.Commit`: a cache write that throws (for example when the inline images or audio
  exceed the storage quota) is only logged and leaves the previous entry (src/contexts/StoryContext.tsx:75-79).
  The model takes every write to succeed; the same holds for `StoryStore.Store.SaveToLocalStorage`.
- `AdminEditor.Editor.MoveScene` requires `index` to be a position of the list. Every caller is a
  button rendered for an existing scene and passes that scene's position.
- `SceneUpdate` has only `imageUrl` and `text`. The source's partial update could also carry an `id`,
  which would break uniqueness, but the editor never passes one.
- `addScene` reads the current document. In the source it computes the id from the last rendered
  snapshot, so two adds before a re-render could get the same id. Calls are taken to be sequential.
- Ids are unbounded integers. The source's ids are JavaScript numbers (floating point).
- Effect timing: the autosave runs right after each replacement of the document. React's batching of
  several updates into one render is not modelled. Neither is an edit made before the start-up load
  finishes.
- I/O: reading and writing the cache, `fetch` and `JSON.parse` are external. The start-up load takes
  its inputs already parsed (`CacheRead`, `FetchOutcome`), and `cached` holds documents, not JSON text.
  Reading a file (`FileReader`) is also external: the handlers take the resulting data URL.
- `exportToJson` (Blob download), `importFromJson` (parse, then replace the document without any
  check), `loadFromLocalStorage`, the raw `setStoryData` and the `useStory` provider check are not
  modelled. They are I/O, or a direct replacement of the document with nothing to verify.
- `saveImageToFile` is declared in src/types/index.ts:27 but has no implementation.
- UI: rendering, toasts and their timer, and the `alert` on a refused add are not modelled. A refused
  add is the result `added == false`. Clearing the file input and the disabled state of the move
  buttons are not modelled either.
- The viewer (Home, StoryViewer, ScenePage, AudioPlayer), the password gate, `useOrientation` and the
  file-writing server middleware in vite.config.ts are not part of this model.
