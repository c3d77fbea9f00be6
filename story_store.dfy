/**
 The story store: the single owner of the current document. Every mutation
 replaces the document with a new one built by a SceneOps transform, and
 each replacement is followed by the autosave effect, which writes the
 document to the browser cache only when there is something to save.

 The cache entry is the field `cached`: the document this store last wrote
 under its storage key, or what an earlier session left there. Reading the
 cache and fetching the bundled document at start-up are I/O; their outcomes
 (already parsed) are parameters of `LoadData`.
 */
module StoryStore {
  import opened StoryTypes
  import opened SceneOps

  // ---------------------------------------------------------------------------
  // Autosave
  // ---------------------------------------------------------------------------

  /** The autosave condition: at least one scene, or a non-empty audio URL. */
  predicate HasContent(d: StoryData) {
    |d.scenes| > 0 || d.audioUrl != ""
  }

  /** The cache entry after the autosave effect has seen document `d`. */
  function Autosave(prev: Option<StoryData>, d: StoryData): (r: Option<StoryData>)
    ensures r == Some(d) || r == prev
    ensures r != prev ==> HasContent(d)
    ensures HasContent(d) ==> r == Some(d)
  {
    if HasContent(d) then Some(d) else prev
  }

  // ---------------------------------------------------------------------------
  // Initial load
  // ---------------------------------------------------------------------------

  /** What reading the cache entry at start-up gave. */
  datatype CacheRead =
    | NoEntry                                                 // nothing stored under the key
    | Unparsable                                              // the entry is not JSON
    | Parsed(audioUrl: string, scenes: Option<seq<Scene>>)    // a JSON object; `scenes` may be missing

  /** What fetching the bundled document at start-up gave. */
  datatype FetchOutcome =
    | FetchFailed                       // the request threw
    | NotOk                             // a response without success status
    | Fetched(body: Option<StoryData>)  // a success response; `None` when its body is not JSON

  /** The cached entry is adopted only when it parsed and holds at least one scene. */
  predicate CacheUsable(saved: CacheRead) {
    saved.Parsed? && saved.scenes.Some? && |saved.scenes.value| > 0
  }

  /**
   The document the start-up load adopts, or `None` when it adopts nothing
   and the store keeps its default.
   */
  function InitialDocument(saved: CacheRead, fetched: FetchOutcome): (r: Option<StoryData>)
    ensures CacheUsable(saved) ==> r == Some(StoryData(saved.audioUrl, saved.scenes.value))
    ensures !CacheUsable(saved) && fetched.Fetched? ==> r == fetched.body
    ensures !CacheUsable(saved) && !fetched.Fetched? ==> r == None
  {
    if CacheUsable(saved) then Some(StoryData(saved.audioUrl, saved.scenes.value))
    else if fetched.Fetched? then fetched.body
    else None
  }

  /**
   A usable cache wins whatever the fetch gives; an unusable one is as good
   as no entry; and a document without scenes can only come from the fetch.
   */
  lemma InitialDocumentSources(saved: CacheRead, fetched: FetchOutcome, other: FetchOutcome)
    ensures CacheUsable(saved) ==> InitialDocument(saved, fetched) == InitialDocument(saved, other)
    ensures !CacheUsable(saved) ==> InitialDocument(saved, fetched) == InitialDocument(NoEntry, fetched)
    ensures InitialDocument(saved, fetched).Some? && InitialDocument(saved, fetched).value.scenes == [] ==>
              fetched.Fetched? && fetched.body == InitialDocument(saved, fetched)
  {
  }

  // ---------------------------------------------------------------------------
  // The store
  // ---------------------------------------------------------------------------

  class Store {
    var data: StoryData
    var cached: Option<StoryData>

    /** A fresh store holds the empty default; the cache keeps what it had. */
    constructor (previous: Option<StoryData>)
      ensures data == DefaultStory
      ensures cached == previous
    {
      data := DefaultStory;
      cached := previous;
    }

    /** Replaces the document, then runs the autosave effect. */
    method Commit(d: StoryData)
      modifies this
      ensures data == d
      ensures cached == Autosave(old(cached), d)
    {
      data := d;
      if HasContent(d) {
        cached := Some(d);
      }
    }

    /** The start-up load: adopt the chosen document, if any. */
    method LoadData(saved: CacheRead, fetched: FetchOutcome)
      modifies this
      ensures data == InitialDocument(saved, fetched).GetOr(old(data))
      ensures cached == if InitialDocument(saved, fetched).Some? then Autosave(old(cached), data) else old(cached)
    {
      var chosen := InitialDocument(saved, fetched);
      if chosen.Some? {
        Commit(chosen.value);
      }
    }

    /** Writes the current document to the cache, whatever it holds. */
    method SaveToLocalStorage()
      modifies this
      ensures data == old(data)
      ensures cached == Some(data)
    {
      cached := Some(data);
    }

    /** Appends a scene whose id is one more than the largest present. */
    method AddScene(imageUrl: string, text: string)
      modifies this
      ensures data.audioUrl == old(data.audioUrl)
      ensures data.scenes == AppendScene(old(data.scenes), imageUrl, text)
      ensures data.scenes[|old(data.scenes)|].id == NextId(old(data.scenes))
      ensures UniqueIds(old(data.scenes)) ==> UniqueIds(data.scenes)
      ensures cached == Autosave(old(cached), data)
    {
      Commit(StoryData(data.audioUrl, AppendScene(data.scenes, imageUrl, text)));
    }

    /** Merges `u` into the scenes whose id is `id`. */
    method UpdateScene(id: int, u: SceneUpdate)
      modifies this
      ensures data.audioUrl == old(data.audioUrl)
      ensures data.scenes == UpdateScenes(old(data.scenes), id, u)
      ensures !HasId(old(data.scenes), id) ==> data.scenes == old(data.scenes)
      ensures UniqueIds(old(data.scenes)) ==> UniqueIds(data.scenes)
      ensures cached == Autosave(old(cached), data)
    {
      var scenes := UpdateScenes(data.scenes, id, u);
      UpdateKeepsIds(data.scenes, id, u);
      if !HasId(data.scenes, id) {
        UpdateAbsentIsNoOp(data.scenes, id, u);
      }
      Commit(StoryData(data.audioUrl, scenes));
    }

    /** Removes the scenes whose id is `id`. */
    method DeleteScene(id: int)
      modifies this
      ensures data.audioUrl == old(data.audioUrl)
      ensures data.scenes == DeleteScenes(old(data.scenes), id)
      ensures !HasId(data.scenes, id)
      ensures !HasId(old(data.scenes), id) ==> data.scenes == old(data.scenes)
      ensures UniqueIds(old(data.scenes)) ==> UniqueIds(data.scenes)
      ensures cached == Autosave(old(cached), data)
    {
      var scenes := DeleteScenes(data.scenes, id);
      if !HasId(data.scenes, id) {
        DeleteAbsentIsNoOp(data.scenes, id);
      }
      if UniqueIds(data.scenes) {
        DeleteKeepsUniqueIds(data.scenes, id);
      }
      Commit(StoryData(data.audioUrl, scenes));
    }

    /** Moves the scene at `fromIndex` so that it ends up at `toIndex`. */
    method ReorderScenes(fromIndex: nat, toIndex: nat)
      requires fromIndex < |data.scenes| && toIndex < |data.scenes|
      modifies this
      ensures data.audioUrl == old(data.audioUrl)
      ensures data.scenes == Reorder(old(data.scenes), fromIndex, toIndex)
      ensures multiset(data.scenes) == multiset(old(data.scenes))
      ensures data.scenes[toIndex] == old(data.scenes)[fromIndex]
      ensures fromIndex == toIndex ==> data.scenes == old(data.scenes)
      ensures UniqueIds(old(data.scenes)) ==> UniqueIds(data.scenes)
      ensures cached == Autosave(old(cached), data)
    {
      var scenes := Reorder(data.scenes, fromIndex, toIndex);
      ReorderIsPermutation(data.scenes, fromIndex, toIndex);
      if fromIndex == toIndex {
        ReorderSameIndex(data.scenes, fromIndex);
      }
      if UniqueIds(data.scenes) {
        ReorderKeepsUniqueIds(data.scenes, fromIndex, toIndex);
      }
      Commit(StoryData(data.audioUrl, scenes));
    }

    /** Replaces the audio URL and nothing else. */
    method SetAudioUrl(url: string)
      modifies this
      ensures data == StoryData(url, old(data.scenes))
      ensures cached == Autosave(old(cached), data)
    {
      Commit(StoryData(url, data.scenes));
    }
  }
}
